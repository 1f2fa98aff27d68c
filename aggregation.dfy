/**
  The one aggregation primitive of the calculator: keep the operations a
  predicate accepts and sum an amount per currency into a dictionary whose
  absent keys read as zero (`get_operations_by_filter`,
  `get_total_payment_by_filter`).
 */
module Aggregation {
  import opened Dicts
  import opened Brokerage

  /** `filter(func, operations)`, in the order of the operations. */
  function OperationsByFilter(ops: seq<Operation>, keep: Operation -> bool): (r: seq<Operation>)
    ensures |r| <= |ops|
    ensures forall o :: o in r <==> o in ops && keep(o)
  {
    if ops == [] then []
    else
      var last := ops[|ops| - 1];
      OperationsByFilter(ops[..|ops| - 1], keep) + (if keep(last) then [last] else [])
  }

  /** The filter `filter(None, ...)` applies: every operation object is truthy. */
  predicate All(o: Operation) { true }

  function Payment(o: Operation): real { o.payment }

  /**
    Summing `amount` per currency over `xs`, one `result[currency] += ...`
    per element, in order.
   */
  function Sums(xs: seq<Operation>, amount: Operation -> real): Dict<Currency, real> {
    if xs == [] then []
    else Add(Sums(xs[..|xs| - 1], amount), xs[|xs| - 1].currency, amount(xs[|xs| - 1]))
  }

  /** What `get_total_payment_by_filter(keep)` returns. */
  function Totals(ops: seq<Operation>, keep: Operation -> bool): Dict<Currency, real> {
    Sums(OperationsByFilter(ops, keep), Payment)
  }

  // Reference definitions, independent of the dictionary fold.

  /** The currencies of the operations that pass `keep`. */
  ghost function Currencies(ops: seq<Operation>, keep: Operation -> bool): set<Currency> {
    set o | o in ops && keep(o) :: o.currency
  }

  /** The sum of `amount` over the operations that pass `keep`. */
  function Total(ops: seq<Operation>, keep: Operation -> bool, amount: Operation -> real): real {
    if ops == [] then 0.0
    else
      var last := ops[|ops| - 1];
      Total(ops[..|ops| - 1], keep, amount) + (if keep(last) then amount(last) else 0.0)
  }

  /** The sum of `amount` over the operations in currency `c` that pass `keep`. */
  function TotalIn(ops: seq<Operation>, keep: Operation -> bool, amount: Operation -> real, c: Currency): real {
    if ops == [] then 0.0
    else
      var last := ops[|ops| - 1];
      TotalIn(ops[..|ops| - 1], keep, amount, c) + (if keep(last) && last.currency == c then amount(last) else 0.0)
  }

  /** The filter keeps the operations it accepts one by one, in order. */
  lemma {:induction false} FilterSnoc(ops: seq<Operation>, keep: Operation -> bool)
    requires ops != []
    ensures var last := ops[|ops| - 1];
      OperationsByFilter(ops, keep) == OperationsByFilter(ops[..|ops| - 1], keep) + (if keep(last) then [last] else [])
  {
  }

  /**
    The filter works operation by operation: filtering a concatenation is
    concatenating the filtered parts, so order and repeated operations are
    kept.
   */
  lemma {:induction false} FilterConcat(a: seq<Operation>, b: seq<Operation>, keep: Operation -> bool)
    ensures OperationsByFilter(a + b, keep) == OperationsByFilter(a, keep) + OperationsByFilter(b, keep)
  {
    if b == [] {
      assert a + b == a;
    } else {
      var init, last := b[..|b| - 1], b[|b| - 1];
      assert (a + b)[..|a + b| - 1] == a + init;
      assert (a + b)[|a + b| - 1] == last;
      FilterConcat(a, init, keep);
    }
  }

  /** Without a predicate nothing is filtered out. */
  lemma {:induction false} NoFilterKeepsAll(ops: seq<Operation>)
    ensures OperationsByFilter(ops, All) == ops
  {
    if ops != [] {
      NoFilterKeepsAll(ops[..|ops| - 1]);
      assert ops[..|ops| - 1] + [ops[|ops| - 1]] == ops;
    }
  }

  /** The fold over a list that grew by one element is one more `+=`. */
  lemma SumsSnoc(xs: seq<Operation>, o: Operation, amount: Operation -> real)
    ensures Sums(xs + [o], amount) == Add(Sums(xs, amount), o.currency, amount(o))
  {
    assert (xs + [o])[..|xs + [o]| - 1] == xs;
  }

  lemma AddAt(d: Dict<Currency, real>, k: Currency, x: real, c: Currency)
    ensures GetOr(Add(d, k, x), c, 0.0) == GetOr(d, c, 0.0) + (if k == c then x else 0.0)
  {
  }

  /** Every result of the primitive has each currency at most once. */
  lemma {:induction false} SumsDistinct(xs: seq<Operation>, amount: Operation -> real)
    ensures DistinctKeys(Sums(xs, amount))
  {
    if xs != [] {
      var d := Sums(xs[..|xs| - 1], amount);
      var last := xs[|xs| - 1];
      SumsDistinct(xs[..|xs| - 1], amount);
      SetDistinct(d, last.currency, GetOr(d, last.currency, 0.0) + amount(last));
    }
  }

  /** The keys of the sums over the filtered operations are the currencies of the passing ones. */
  lemma {:induction false} FilteredSumsKeys(ops: seq<Operation>, keep: Operation -> bool, amount: Operation -> real)
    ensures Keys(Sums(OperationsByFilter(ops, keep), amount)) == Currencies(ops, keep)
  {
    if ops != [] {
      var init, last := ops[..|ops| - 1], ops[|ops| - 1];
      assert ops == init + [last];
      FilteredSumsKeys(init, keep, amount);
      var xs0 := OperationsByFilter(init, keep);
      FilterSnoc(ops, keep);
      if keep(last) {
        SumsSnoc(xs0, last, amount);
      } else {
        assert OperationsByFilter(ops, keep) == xs0;
      }
      CurrenciesSnoc(init, last, keep);
    }
  }

  lemma CurrenciesSnoc(init: seq<Operation>, last: Operation, keep: Operation -> bool)
    ensures Currencies(init + [last], keep) == Currencies(init, keep) + (if keep(last) then {last.currency} else {})
  {
    var l, r := Currencies(init + [last], keep), Currencies(init, keep) + (if keep(last) then {last.currency} else {});
    forall c | c in l ensures c in r {
      var o :| o in init + [last] && keep(o) && o.currency == c;
      if o != last { assert o in init; }
    }
    forall c | c in r ensures c in l {
      if c !in Currencies(init, keep) {
        assert last in init + [last];
      } else {
        var o :| o in init && keep(o) && o.currency == c;
        assert o in init + [last];
      }
    }
  }

  /** Each value is the sum of the passing operations' amounts in that currency. */
  lemma {:induction false} FilteredSumsAt(ops: seq<Operation>, keep: Operation -> bool, amount: Operation -> real,
                                          c: Currency)
    ensures GetOr(Sums(OperationsByFilter(ops, keep), amount), c, 0.0) == TotalIn(ops, keep, amount, c)
  {
    if ops != [] {
      var init, last := ops[..|ops| - 1], ops[|ops| - 1];
      FilteredSumsAt(init, keep, amount, c);
      var xs0 := OperationsByFilter(init, keep);
      var step := if keep(last) && last.currency == c then amount(last) else 0.0;
      assert GetOr(Sums(OperationsByFilter(ops, keep), amount), c, 0.0) == GetOr(Sums(xs0, amount), c, 0.0) + step by {
        FilterSnoc(ops, keep);
        if keep(last) {
          SumsSnoc(xs0, last, amount);
          AddAt(Sums(xs0, amount), last.currency, amount(last), c);
        } else {
          assert OperationsByFilter(ops, keep) == xs0;
        }
      }
      assert TotalIn(ops, keep, amount, c) == TotalIn(init, keep, amount, c) + step;
    }
  }

  /** All values together add up to the total amount of the passing operations. */
  lemma {:induction false} FilteredSumsTotal(ops: seq<Operation>, keep: Operation -> bool, amount: Operation -> real)
    ensures ValueSum(Sums(OperationsByFilter(ops, keep), amount)) == Total(ops, keep, amount)
  {
    if ops != [] {
      var init, last := ops[..|ops| - 1], ops[|ops| - 1];
      FilteredSumsTotal(init, keep, amount);
      var xs0 := OperationsByFilter(init, keep);
      FilterSnoc(ops, keep);
      if keep(last) {
        SumsSnoc(xs0, last, amount);
      } else {
        assert OperationsByFilter(ops, keep) == xs0;
      }
    }
  }

  /** `get_total_payment_by_filter(keep)` against the reference definitions: keys, per-currency values and grand total. */
  lemma TotalsMeaning(ops: seq<Operation>, keep: Operation -> bool)
    ensures DistinctKeys(Totals(ops, keep))
    ensures Keys(Totals(ops, keep)) == Currencies(ops, keep)
    ensures forall c :: GetOr(Totals(ops, keep), c, 0.0) == TotalIn(ops, keep, Payment, c)
    ensures ValueSum(Totals(ops, keep)) == Total(ops, keep, Payment)
  {
    SumsDistinct(OperationsByFilter(ops, keep), Payment);
    FilteredSumsKeys(ops, keep, Payment);
    FilteredSumsTotal(ops, keep, Payment);
    forall c ensures GetOr(Totals(ops, keep), c, 0.0) == TotalIn(ops, keep, Payment, c) {
      FilteredSumsAt(ops, keep, Payment, c);
    }
  }

  /** An empty match gives an empty dictionary, whose lookups read as zero. */
  lemma {:induction false} TotalsOfNoMatch(ops: seq<Operation>, keep: Operation -> bool)
    requires forall o :: o in ops ==> !keep(o)
    ensures Totals(ops, keep) == []
    ensures forall c :: GetOr(Totals(ops, keep), c, 0.0) == 0.0
  {
    if ops != [] {
      TotalsOfNoMatch(ops[..|ops| - 1], keep);
      FilterSnoc(ops, keep);
    }
  }

  /** The per-currency sums add up when one predicate is the disjoint union of two. */
  lemma {:induction false} TotalInDisjointUnion(ops: seq<Operation>, p: Operation -> bool, q: Operation -> bool,
                                                  r: Operation -> bool, amount: Operation -> real, c: Currency)
    requires forall o :: r(o) == (p(o) || q(o))
    requires forall o :: !(p(o) && q(o))
    ensures TotalIn(ops, r, amount, c) == TotalIn(ops, p, amount, c) + TotalIn(ops, q, amount, c)
  {
    if ops != [] {
      TotalInDisjointUnion(ops[..|ops| - 1], p, q, r, amount, c);
    }
  }

  /**
    When every operation `r` accepts is accepted by exactly one of the
    disjoint `p` and `q`, the aggregate for `r` is, currency by currency, the
    sum of the aggregates for `p` and `q`, and its keys are theirs together.
   */
  lemma TotalsOfDisjointUnion(ops: seq<Operation>, p: Operation -> bool, q: Operation -> bool, r: Operation -> bool)
    requires forall o :: r(o) == (p(o) || q(o))
    requires forall o :: !(p(o) && q(o))
    ensures forall c :: GetOr(Totals(ops, r), c, 0.0) == GetOr(Totals(ops, p), c, 0.0) + GetOr(Totals(ops, q), c, 0.0)
    ensures Keys(Totals(ops, r)) == Keys(Totals(ops, p)) + Keys(Totals(ops, q))
  {
    TotalsMeaning(ops, p);
    TotalsMeaning(ops, q);
    TotalsMeaning(ops, r);
    forall c ensures TotalIn(ops, r, Payment, c) == TotalIn(ops, p, Payment, c) + TotalIn(ops, q, Payment, c) {
      TotalInDisjointUnion(ops, p, q, r, Payment, c);
    }
  }

  /**
    `get_total_payment_by_filter`: a `defaultdict(float)` filled by a loop
    over the filtered operations.
   */
  method TotalPaymentByFilter(ops: seq<Operation>, keep: Operation -> bool) returns (result: Dict<Currency, real>)
    ensures result == Totals(ops, keep)
  {
    var passing := OperationsByFilter(ops, keep);
    result := [];
    for i := 0 to |passing|
      invariant result == Sums(passing[..i], Payment)
    {
      assert passing[..i + 1] == passing[..i] + [passing[i]];
      SumsSnoc(passing[..i], passing[i], Payment);
      result := Add(result, passing[i].currency, passing[i].payment);
    }
    assert passing[..|passing|] == passing;
  }
}

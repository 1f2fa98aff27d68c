/**
  `get_statistics` and `get_statistics_str`: the total profit per currency
  (every profit entry summed, then the service commissions added), and the
  nine report sections in their fixed order.
 */
module Report {
  import opened Wrappers
  import opened Dicts
  import opened Brokerage
  import opened Aggregation
  import opened Statistics
  import opened Profit
  import opened Formatting

  /** Every entry of `e` added into `d` in order, as `d[c] += v` does on a `defaultdict(float)`. */
  function AddAll(d: Dict<Currency, real>, e: Dict<Currency, real>): Dict<Currency, real> {
    if e == [] then d else Add(AddAll(d, e[..|e| - 1]), e[|e| - 1].0, e[|e| - 1].1)
  }

  /** The sum of what `e` holds under `c`, counting a repeated key each time. */
  function EntrySum(e: Dict<Currency, real>, c: Currency): real {
    if e == [] then 0.0 else EntrySum(e[..|e| - 1], c) + (if e[|e| - 1].0 == c then e[|e| - 1].1 else 0.0)
  }

  /** The first loop of `get_statistics`: `total_profit` summed over every entry of the profit map. */
  function ProfitSums(profit: ProfitMap): Dict<Currency, real> {
    if profit == [] then [] else AddAll(ProfitSums(profit[..|profit| - 1]), profit[|profit| - 1].1)
  }

  /** Reference definition: the sum, over the entries of the profit map, of what each holds under `c`. */
  function ProfitTotalIn(profit: ProfitMap, c: Currency): real {
    if profit == [] then 0.0 else ProfitTotalIn(profit[..|profit| - 1], c) + EntrySum(profit[|profit| - 1].1, c)
  }

  /** The currencies that occur in any entry of the profit map. */
  function ProfitCurrencies(profit: ProfitMap): set<Currency> {
    if profit == [] then {} else ProfitCurrencies(profit[..|profit| - 1]) + Keys(profit[|profit| - 1].1)
  }

  lemma {:induction false} AddAllAt(d: Dict<Currency, real>, e: Dict<Currency, real>, c: Currency)
    ensures GetOr(AddAll(d, e), c, 0.0) == GetOr(d, c, 0.0) + EntrySum(e, c)
  {
    if e != [] {
      AddAllAt(d, e[..|e| - 1], c);
    }
  }

  lemma {:induction false} AddAllKeys(d: Dict<Currency, real>, e: Dict<Currency, real>)
    ensures Keys(AddAll(d, e)) == Keys(d) + Keys(e)
  {
    if e != [] {
      AddAllKeys(d, e[..|e| - 1]);
      assert e == e[..|e| - 1] + [e[|e| - 1]];
      KeysOfSnoc(e[..|e| - 1], e[|e| - 1]);
    }
  }

  lemma {:induction false} AddAllDistinct(d: Dict<Currency, real>, e: Dict<Currency, real>)
    requires DistinctKeys(d)
    ensures DistinctKeys(AddAll(d, e))
  {
    if e != [] {
      var prev, last := AddAll(d, e[..|e| - 1]), e[|e| - 1];
      AddAllDistinct(d, e[..|e| - 1]);
      SetDistinct(prev, last.0, GetOr(prev, last.0, 0.0) + last.1);
    }
  }

  /** Over a dictionary without repeated keys, the entry sum is the lookup. */
  lemma {:induction false} EntrySumDistinct(e: Dict<Currency, real>, c: Currency)
    requires DistinctKeys(e)
    ensures EntrySum(e, c) == GetOr(e, c, 0.0)
  {
    if e != [] {
      var init, last := e[..|e| - 1], e[|e| - 1];
      assert e == init + [last];
      assert DistinctKeys(init) by {
        forall i, j | 0 <= i < j < |init| ensures init[i].0 != init[j].0 { assert init[i] == e[i] && init[j] == e[j]; }
      }
      EntrySumDistinct(init, c);
      FindKeys(init, c);
      if c in Keys(init) {
        FindTail(init, last, c);
        if last.0 == c {
          KeysAt(init, c);
          assert false;
        }
      } else {
        FindSnocNew(init, last, c);
      }
    }
  }

  /**
    `total_profit` before the service commissions: per currency, the sum
    over every profit entry; its keys are the currencies that occur in the
    profit map, each once.
   */
  lemma {:induction false} ProfitSumsMeaning(profit: ProfitMap, c: Currency)
    ensures GetOr(ProfitSums(profit), c, 0.0) == ProfitTotalIn(profit, c)
    ensures Keys(ProfitSums(profit)) == ProfitCurrencies(profit)
    ensures DistinctKeys(ProfitSums(profit))
  {
    if profit != [] {
      var init, last := profit[..|profit| - 1], profit[|profit| - 1];
      ProfitSumsMeaning(init, c);
      AddAllAt(ProfitSums(init), last.1, c);
      AddAllKeys(ProfitSums(init), last.1);
      AddAllDistinct(ProfitSums(init), last.1);
    }
  }

  /** Reference definition: the sum, over the entries of the profit map, of each entry's lookup of `c`. */
  function LookupTotalIn(profit: ProfitMap, c: Currency): real {
    if profit == [] then 0.0 else LookupTotalIn(profit[..|profit| - 1], c) + GetOr(profit[|profit| - 1].1, c, 0.0)
  }

  /** When no entry repeats a currency, the entry sums are the lookups. */
  lemma {:induction false} ProfitTotalInDistinct(profit: ProfitMap, c: Currency)
    requires EntriesDistinct(profit)
    ensures ProfitTotalIn(profit, c) == LookupTotalIn(profit, c)
  {
    if profit != [] {
      var init := profit[..|profit| - 1];
      assert EntriesDistinct(init) by {
        forall i | 0 <= i < |init| ensures DistinctKeys(init[i].1) { assert init[i] == profit[i]; }
      }
      ProfitTotalInDistinct(init, c);
      EntrySumDistinct(profit[|profit| - 1].1, c);
    }
  }

  /**
    The second loop of `get_statistics`: for each key of `total_profit`, in
    order, read the service commission (a `defaultdict` read, which inserts
    0 when the currency is absent) and add it.
   */
  function ApplyService(total: Dict<Currency, real>, service: Dict<Currency, real>, keys: seq<Currency>)
    : (Dict<Currency, real>, Dict<Currency, real>)
  {
    if keys == [] then (total, service)
    else
      var prev := ApplyService(total, service, keys[..|keys| - 1]);
      var k := keys[|keys| - 1];
      var read := Touch(prev.1, k, 0.0);
      (Add(prev.0, k, read.0), read.1)
  }

  /** One more key reads its service commission and adds it to the total. */
  lemma ApplyServiceSnoc(total: Dict<Currency, real>, service: Dict<Currency, real>, keys: seq<Currency>, k: Currency)
    ensures var prev := ApplyService(total, service, keys);
      var read := Touch(prev.1, k, 0.0);
      ApplyService(total, service, keys + [k]) == (Add(prev.0, k, read.0), read.1)
  {
    assert (keys + [k])[..|keys|] == keys;
  }

  predicate NoRepeats(keys: seq<Currency>) {
    forall i, j :: 0 <= i < j < |keys| ==> keys[i] != keys[j]
  }

  /** Peels the last key off a sequence without repeats. */
  lemma NoRepeatsInit(keys: seq<Currency>)
    requires keys != [] && NoRepeats(keys)
    ensures NoRepeats(keys[..|keys| - 1]) && keys[|keys| - 1] !in keys[..|keys| - 1]
  {
    var init := keys[..|keys| - 1];
    assert forall i :: 0 <= i < |init| ==> init[i] == keys[i];
  }

  /** The service commissions keep every value, and a read of an absent currency leaves 0 behind. */
  lemma {:induction false} ApplyServiceReads(total: Dict<Currency, real>, service: Dict<Currency, real>,
                                             keys: seq<Currency>, c: Currency)
    ensures GetOr(ApplyService(total, service, keys).1, c, 0.0) == GetOr(service, c, 0.0)
    ensures Find(service, c).Some? ==> Find(ApplyService(total, service, keys).1, c) == Find(service, c)
  {
    if keys != [] {
      var init, k := keys[..|keys| - 1], keys[|keys| - 1];
      ApplyServiceReads(total, service, init, c);
      if k == c {
        ApplyServiceReads(total, service, init, k);
      }
    }
  }

  /** Each key of the total gains the service commission in its currency, once. */
  lemma {:induction false} ApplyServiceAt(total: Dict<Currency, real>, service: Dict<Currency, real>,
                                          keys: seq<Currency>, c: Currency)
    requires NoRepeats(keys)
    ensures GetOr(ApplyService(total, service, keys).0, c, 0.0)
            == GetOr(total, c, 0.0) + (if c in keys then GetOr(service, c, 0.0) else 0.0)
  {
    if keys != [] {
      var init, k := keys[..|keys| - 1], keys[|keys| - 1];
      assert keys == init + [k];
      NoRepeatsInit(keys);
      ApplyServiceAt(total, service, init, c);
      ApplyServiceReads(total, service, init, k);
    }
  }

  lemma {:induction false} ApplyServiceKeys(total: Dict<Currency, real>, service: Dict<Currency, real>,
                                            keys: seq<Currency>)
    ensures Keys(ApplyService(total, service, keys).0) == Keys(total) + set k | k in keys
    ensures Keys(ApplyService(total, service, keys).1) == Keys(service) + set k | k in keys
  {
    if keys != [] {
      var init, k := keys[..|keys| - 1], keys[|keys| - 1];
      assert keys == init + [k];
      assert (set x | x in keys) == (set x | x in init) + {k};
      ApplyServiceKeys(total, service, init);
    }
  }

  lemma {:induction false} KeySeqDistinct<K(!new), V>(d: Dict<K, V>)
    requires DistinctKeys(d)
    ensures forall i, j :: 0 <= i < j < |KeySeq(d)| ==> KeySeq(d)[i] != KeySeq(d)[j]
    ensures (set k | k in KeySeq(d)) == Keys(d)
  {
    var ks := KeySeq(d);
    var s := set k | k in ks;
    forall k ensures k in ks <==> k in Keys(d) {
      KeysAt(d, k);
      if k in ks {
        var i :| 0 <= i < |ks| && ks[i] == k;
        assert d[i].0 == k;
      }
      if k in Keys(d) {
        var i :| 0 <= i < |d| && d[i].0 == k;
        assert ks[i] == k;
      }
    }
    assert forall k :: k in s <==> k in Keys(d);
    assert s == Keys(d);
  }

  /** Both loops of `get_statistics` over the profit map: the total profit and the service commissions after it. */
  function TotalProfit(profit: ProfitMap, service: Dict<Currency, real>): (Dict<Currency, real>, Dict<Currency, real>) {
    var sums := ProfitSums(profit);
    ApplyService(sums, service, KeySeq(sums))
  }

  /**
    The total profit holds the currencies that occur in the profit map, each
    with its sum over every entry plus the service commission in that
    currency. The service commissions keep every value they had and gain a 0
    entry for each of those currencies they lacked, which is then printed
    in the `Service commissions` section.
   */
  lemma TotalProfitMeaning(profit: ProfitMap, service: Dict<Currency, real>, c: Currency)
    ensures Keys(TotalProfit(profit, service).0) == ProfitCurrencies(profit)
    ensures c in ProfitCurrencies(profit) ==>
              GetOr(TotalProfit(profit, service).0, c, 0.0) == ProfitTotalIn(profit, c) + GetOr(service, c, 0.0)
    ensures Keys(TotalProfit(profit, service).1) == Keys(service) + ProfitCurrencies(profit)
    ensures c in Keys(service) ==> Find(TotalProfit(profit, service).1, c) == Find(service, c)
    ensures c in ProfitCurrencies(profit) && c !in Keys(service) ==> Find(TotalProfit(profit, service).1, c) == Some(0.0)
  {
    var sums := ProfitSums(profit);
    ProfitSumsMeaning(profit, c);
    KeySeqDistinct(sums);
    ApplyServiceAt(sums, service, KeySeq(sums), c);
    ApplyServiceReads(sums, service, KeySeq(sums), c);
    ApplyServiceKeys(sums, service, KeySeq(sums));
    FindKeys(service, c);
    FindKeys(TotalProfit(profit, service).1, c);
  }

  /**
    For the profit map `get_profit` returns, the total profit in a currency
    that occurs in it is the sum of every entry's amount in that currency
    plus the service commission in it.
   */
  lemma TotalProfitOfProfit(ops: seq<Operation>, positions: seq<Position>, search: string -> MarketInstrument,
                            service: Dict<Currency, real>, c: Currency)
    ensures var profit := ProfitOf(ops, positions, search);
      c in ProfitCurrencies(profit) ==>
        GetOr(TotalProfit(profit, service).0, c, 0.0) == LookupTotalIn(profit, c) + GetOr(service, c, 0.0)
  {
    var profit := ProfitOf(ops, positions, search);
    TotalProfitMeaning(profit, service, c);
    ProfitOfEntriesDistinct(ops, positions, search);
    ProfitTotalInDistinct(profit, c);
  }

  /** A currency dictionary as the values `format_dict_with_emoji` meets: floats under currency names. */
  function AmountsValue(d: Dict<Currency, real>): seq<(string, Value)> {
    seq(|d|, i requires 0 <= i < |d| => (CurrencyName(d[i].0), Float(d[i].1)))
  }

  /** The profit map for `format_dict_with_emoji`: a nested dictionary under each label. */
  function ProfitValue(profit: ProfitMap): seq<(string, Value)> {
    seq(|profit|, i requires 0 <= i < |profit| => (profit[i].0, Nested(AmountsValue(profit[i].1))))
  }

  /** A currency dictionary prints `CUR: <amount><emoji>; ` per entry, and nothing when it is empty. */
  lemma AmountsText(d: Dict<Currency, real>, c: Currency, v: real, display: Display)
    ensures EmojiText(AmountsValue(d + [(c, v)]), display)
            == EmojiText(AmountsValue(d), display) + CurrencyName(c) + ": " + AmountEmoji(v, display) + "; "
    ensures EmojiText(AmountsValue(d), display) == "" <==> d == []
  {
    assert AmountsValue(d + [(c, v)]) == AmountsValue(d) + [(CurrencyName(c), Float(v))];
    EmojiTextSnoc(AmountsValue(d), CurrencyName(c), Float(v), display);
    EmojiTextEmpty(AmountsValue(d), display);
    if d != [] {
      assert !AmountsValue(d)[0].1.Other?;
    }
  }

  /** Each entry of the profit map prints its label, `: `, and its currency amounts. */
  lemma ProfitText(profit: ProfitMap, name: string, e: Dict<Currency, real>, display: Display)
    ensures EmojiText(ProfitValue(profit + [(name, e)]), display)
            == EmojiText(ProfitValue(profit), display) + name + ": " + EmojiText(AmountsValue(e), display)
  {
    assert ProfitValue(profit + [(name, e)]) == ProfitValue(profit) + [(name, Nested(AmountsValue(e)))];
    EmojiTextSnoc(ProfitValue(profit), name, Nested(AmountsValue(e)), display);
  }

  /** The titles of the report sections, in the order the report lists them. */
  const SectionTitles: seq<string> := [
    "Commissions and Taxes", "Service commissions", "Pay In", "Pay Out", "Pay Total",
    "Operations", "Balance", "Total Profit", "Detailed Profit"
  ]

  /** The text of each section, in the order of the titles. */
  function SectionTexts(ops: seq<Operation>, positions: seq<Position>, search: string -> MarketInstrument,
                        display: Display): (texts: seq<string>)
    ensures |texts| == |SectionTitles|
  {
    var profit := ProfitOf(ops, positions, search);
    var totals := TotalProfit(profit, ServiceCommissions(ops));
    [ FormatDict(Commissions(ops), display),
      FormatDict(totals.1, display),
      FormatDict(PayInTotals(ops), display),
      FormatDict(PayOutTotals(ops), display),
      FormatDict(PayTotal(ops), display),
      FormatDict(OperationsBalance(ops), display),
      FormatDict(Balance(ops), display),
      EmojiText(AmountsValue(totals.0), display),
      EmojiText(ProfitValue(profit), display) ]
  }

  /** Each title with its text. */
  function Sections(texts: seq<string>): seq<(string, string)>
    requires |texts| == |SectionTitles|
  {
    seq(|SectionTitles|, i requires 0 <= i < |SectionTitles| => (SectionTitles[i], texts[i]))
  }

  /** `get_statistics`. */
  function StatisticsOf(ops: seq<Operation>, positions: seq<Position>, search: string -> MarketInstrument,
                        display: Display): seq<(string, string)>
  {
    Sections(SectionTexts(ops, positions, search, display))
  }

  /** The report has the nine sections in their fixed order. */
  lemma StatisticsSections(ops: seq<Operation>, positions: seq<Position>, search: string -> MarketInstrument,
                           display: Display)
    ensures |StatisticsOf(ops, positions, search, display)| == |SectionTitles|
    ensures forall i :: 0 <= i < |SectionTitles| ==> StatisticsOf(ops, positions, search, display)[i].0 == SectionTitles[i]
  {
  }

  /** Without operations the profit map holds only the two empty base entries. */
  lemma ProfitOfNoOperations(positions: seq<Position>, search: string -> MarketInstrument)
    ensures ProfitOf([], positions, search) == [("dividend", []), ("coupon", [])]
  {
    assert Trades([]) == [];
    assert FigiTotalsOf([]) == [];
    assert Dividends([]) == [] && Coupons([]) == [];
  }

  /** The base entries alone print as `dividend: coupon: ` and sum to nothing. */
  lemma EmptyBaseText(display: Display)
    ensures EmojiText(ProfitValue([("dividend", []), ("coupon", [])]), display) == "dividend: coupon: "
    ensures ProfitSums([("dividend", []), ("coupon", [])]) == []
  {
    var first: ProfitMap := [("dividend", [])];
    var base: ProfitMap := first + [("coupon", [])];
    assert base[..1] == first;
    assert ProfitSums(first) == [] by { assert first[..0] == []; }
    ProfitText(first, "coupon", [], display);
    ProfitText([], "dividend", [], display);
    assert first == [] + first;
    AmountsText([], RUB, 0.0, display);
  }

  /**
    Without operations every currency section is empty and the detailed
    profit shows only the two empty base entries.
   */
  lemma StatisticsOfNoOperations(positions: seq<Position>, search: string -> MarketInstrument, display: Display)
    ensures forall i :: 0 <= i < 8 ==> StatisticsOf([], positions, search, display)[i].1 == ""
    ensures StatisticsOf([], positions, search, display)[8].1 == "dividend: coupon: "
  {
    ProfitOfNoOperations(positions, search);
    EmptyBaseText(display);
    assert ServiceCommissions([]) == [] && Commissions([]) == [] && PayInTotals([]) == [] && PayOutTotals([]) == [];
    assert PayTotal([]) == [] && OperationsBalance([]) == [] && Balance([]) == [];
    assert KeySeq<Currency, real>([]) == [];
    AmountsText([], RUB, 0.0, display);
  }

  /** One line per section: `title -> text`. */
  function SectionLines(stats: seq<(string, string)>): (lines: seq<string>)
    ensures |lines| == |stats|
    ensures forall i :: 0 <= i < |stats| ==> lines[i] == stats[i].0 + " -> " + stats[i].1
  {
    seq(|stats|, i requires 0 <= i < |stats| => stats[i].0 + " -> " + stats[i].1)
  }

  /** `get_statistics_str`: the section lines joined with newlines. */
  function StatisticsStr(stats: seq<(string, string)>): (s: string)
    ensures |stats| == 1 ==> s == stats[0].0 + " -> " + stats[0].1
  {
    Join("\n", SectionLines(stats))
  }

  /** Adding a section adds a newline and its line after the others. */
  lemma StatisticsStrSnoc(stats: seq<(string, string)>, title: string, text: string)
    requires stats != []
    ensures StatisticsStr(stats + [(title, text)]) == StatisticsStr(stats) + "\n" + title + " -> " + text
  {
    var lines := SectionLines(stats + [(title, text)]);
    assert lines[..|lines| - 1] == SectionLines(stats);
  }

  /** The first loop of `get_statistics`, nested over the entries of every profit entry. */
  method SumProfit(profit: ProfitMap) returns (total: Dict<Currency, real>)
    ensures total == ProfitSums(profit)
  {
    total := [];
    for i := 0 to |profit|
      invariant total == ProfitSums(profit[..i])
    {
      assert profit[..i + 1][..i] == profit[..i];
      var curVal := profit[i].1;
      ghost var before := total;
      for j := 0 to |curVal|
        invariant total == AddAll(before, curVal[..j])
      {
        assert curVal[..j + 1][..j] == curVal[..j];
        total := Add(total, curVal[j].0, curVal[j].1);
      }
      assert curVal[..|curVal|] == curVal;
    }
    assert profit[..|profit|] == profit;
  }

  /** The second loop of `get_statistics`. */
  method AddServiceCommission(total: Dict<Currency, real>, service: Dict<Currency, real>)
    returns (total': Dict<Currency, real>, service': Dict<Currency, real>)
    ensures (total', service') == ApplyService(total, service, KeySeq(total))
  {
    var keys := KeySeq(total);
    total', service' := total, service;
    for i := 0 to |keys|
      invariant (total', service') == ApplyService(total, service, keys[..i])
    {
      assert keys[..i + 1] == keys[..i] + [keys[i]];
      ApplyServiceSnoc(total, service, keys[..i], keys[i]);
      var read := Touch(service', keys[i], 0.0);
      service' := read.1;
      total' := Add(total', keys[i], read.0);
    }
    assert keys[..|keys|] == keys;
  }

  /** `get_statistics`, with the profit and both loops as the source computes them. */
  method GetStatistics(ops: seq<Operation>, positions: seq<Position>, search: string -> MarketInstrument,
                       display: Display) returns (stats: seq<(string, string)>)
    ensures stats == StatisticsOf(ops, positions, search, display)
  {
    var service := TotalPaymentByFilter(ops, TypeIn({ServiceCommission}));
    var commission := TotalPaymentByFilter(ops, TypeIn(CommissionTypes));
    var profit := GetProfit(ops, positions, search);
    var total := SumProfit(profit);
    total, service := AddServiceCommission(total, service);
    var payIn := TotalPaymentByFilter(ops, TypeIn({PayIn}));
    var payOut := TotalPaymentByFilter(ops, TypeIn({PayOut}));
    var payTotal := TotalPaymentByFilter(ops, TypeIn(PayTypes));
    var operations := TotalPaymentByFilter(ops, TypeIn(TradeTypes));
    var balance := TotalPaymentByFilter(ops, InDefaultCurrency);
    var totalText := FormatDictWithEmoji(AmountsValue(total), display);
    var detailedText := FormatDictWithEmoji(ProfitValue(profit), display);
    var texts := [ FormatDict(commission, display), FormatDict(service, display), FormatDict(payIn, display),
                   FormatDict(payOut, display), FormatDict(payTotal, display), FormatDict(operations, display),
                   FormatDict(balance, display), totalText, detailedText ];
    ghost var expected := SectionTexts(ops, positions, search, display);
    assert texts[1] == expected[1];
    assert texts[7] == expected[7];
    assert texts == expected;
    stats := Sections(texts);
  }
}

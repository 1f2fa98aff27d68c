/**
  The profit map of `get_profit`: the dividend and coupon aggregates, then
  one entry per traded instrument, whose value depends on whether the
  instrument is still held in the portfolio.
 */
module Profit {
  import opened Wrappers
  import opened Dicts
  import opened Brokerage
  import opened Aggregation
  import opened Statistics

  /** Display name (or `dividend`, `coupon`) to an amount per currency. */
  type ProfitMap = Dict<string, Dict<Currency, real>>

  /** The per-instrument accumulator: figi to an amount per currency. */
  type FigiTotals = Dict<string, Dict<Currency, real>>

  /** `payment + getattr(commission, 'value', 0)`: a missing commission adds nothing. */
  function TradeAmount(o: Operation): real {
    o.payment + match o.commission case Some(m) => m.value case None => 0.0
  }

  /** A buy, sell or card buy of an instrument that is not a currency. */
  predicate IsInstrumentTrade(o: Operation) {
    o.opType in TradeTypes && o.instrumentType != Some(CurrencyInstrument)
  }

  function HasFigi(figi: string): Operation -> bool {
    (o: Operation) => o.figi == figi
  }

  /** `figi_total[figi][currency] += x` on the nested `defaultdict`. */
  function AddNested(d: FigiTotals, figi: string, c: Currency, x: real): FigiTotals {
    Set(d, figi, Add(GetOr(d, figi, []), c, x))
  }

  /** The accumulator after visiting the trades `xs` in order. */
  function TradeSums(xs: seq<Operation>): FigiTotals {
    if xs == [] then []
    else
      var last := xs[|xs| - 1];
      AddNested(TradeSums(xs[..|xs| - 1]), last.figi, last.currency, TradeAmount(last))
  }

  /** The trades the accumulator visits. */
  function Trades(ops: seq<Operation>): seq<Operation> {
    OperationsByFilter(ops, IsInstrumentTrade)
  }

  function FigiTotalsOf(ops: seq<Operation>): FigiTotals {
    TradeSums(Trades(ops))
  }

  /**
    The accumulator holds a figi exactly when some trade has it, and then
    holds the per-currency sums of that figi's trades.
   */
  lemma {:induction false} TradeSumsAt(xs: seq<Operation>, figi: string)
    ensures var mine := OperationsByFilter(xs, HasFigi(figi));
      Find(TradeSums(xs), figi) == if mine != [] then Some(Sums(mine, TradeAmount)) else None
  {
    if xs != [] {
      var init, last := xs[..|xs| - 1], xs[|xs| - 1];
      TradeSumsAt(init, figi);
      FilterSnoc(xs, HasFigi(figi));
      var mine := OperationsByFilter(init, HasFigi(figi));
      if last.figi == figi {
        assert OperationsByFilter(xs, HasFigi(figi)) == mine + [last];
        SumsSnoc(mine, last, TradeAmount);
      } else {
        assert OperationsByFilter(xs, HasFigi(figi)) == mine;
      }
    }
  }

  lemma {:induction false} TradeSumsDistinct(xs: seq<Operation>)
    ensures DistinctKeys(TradeSums(xs))
  {
    if xs != [] {
      var init, last := xs[..|xs| - 1], xs[|xs| - 1];
      TradeSumsDistinct(init);
      var d := TradeSums(init);
      SetDistinct(d, last.figi, Add(GetOr(d, last.figi, []), last.currency, TradeAmount(last)));
    }
  }

  /**
    The accumulator of `get_profit`: a figi is a key exactly when some trade
    has it; its value has each currency once, its currencies are those of the
    figi's trades, and each amount is the sum of `payment + commission` over
    the figi's trades in that currency.
   */
  lemma FigiTotalsMeaning(ops: seq<Operation>, figi: string)
    ensures DistinctKeys(FigiTotalsOf(ops))
    ensures figi in Keys(FigiTotalsOf(ops)) <==> exists o :: o in ops && IsInstrumentTrade(o) && o.figi == figi
    ensures var inner := GetOr(FigiTotalsOf(ops), figi, []);
      && DistinctKeys(inner)
      && Keys(inner) == Currencies(Trades(ops), HasFigi(figi))
      && forall c :: GetOr(inner, c, 0.0) == TotalIn(Trades(ops), HasFigi(figi), TradeAmount, c)
  {
    var xs := Trades(ops);
    TradeSumsDistinct(xs);
    TradeSumsAt(xs, figi);
    FindKeys(TradeSums(xs), figi);
    var inner := GetOr(FigiTotalsOf(ops), figi, []);
    var mine := OperationsByFilter(xs, HasFigi(figi));
    assert mine != [] <==> exists o :: o in xs && o.figi == figi by {
      if mine != [] { assert mine[0] in mine; }
    }
    assert inner == Sums(mine, TradeAmount);
    SumsDistinct(OperationsByFilter(xs, HasFigi(figi)), TradeAmount);
    FilteredSumsKeys(xs, HasFigi(figi), TradeAmount);
    forall c ensures GetOr(inner, c, 0.0) == TotalIn(xs, HasFigi(figi), TradeAmount, c) {
      FilteredSumsAt(xs, HasFigi(figi), TradeAmount, c);
    }
  }

  /** What a held position contributes: its ticker, value and currency. */
  datatype Holding = Holding(ticker: string, value: real, currency: Currency)

  function HoldingOf(p: Position): Holding {
    Holding(p.ticker, PositionValue(p), p.averagePositionPrice.currency)
  }

  /** `figi_in_portfolio`, built position by position (a later figi overwrites an earlier one). */
  function Holdings(positions: seq<Position>): Dict<string, Holding> {
    if positions == [] then []
    else
      var last := positions[|positions| - 1];
      Set(Holdings(positions[..|positions| - 1]), last.figi, HoldingOf(last))
  }

  /** A figi that no position has finds no holding. */
  lemma {:induction false} HoldingsNone(positions: seq<Position>, figi: string)
    requires forall i :: 0 <= i < |positions| ==> positions[i].figi != figi
    ensures Find(Holdings(positions), figi) == None
  {
    if positions != [] {
      var init := positions[..|positions| - 1];
      assert forall i :: 0 <= i < |init| ==> init[i] == positions[i];
      HoldingsNone(init, figi);
    }
  }

  /** A figi finds the holding of the last position that has it. */
  lemma {:induction false} HoldingsLast(positions: seq<Position>, figi: string, i: nat)
    requires i < |positions| && positions[i].figi == figi
    requires forall j :: i < j < |positions| ==> positions[j].figi != figi
    ensures Find(Holdings(positions), figi) == Some(HoldingOf(positions[i]))
  {
    if i < |positions| - 1 {
      var init := positions[..|positions| - 1];
      assert forall j :: 0 <= j < |init| ==> init[j] == positions[j];
      HoldingsLast(init, figi, i);
    }
  }

  /**
    The entry one accumulated (currency, sum) pair of an instrument yields:
    a closed instrument gets its sum; a held one whose position currency
    matches gets the sum plus the position's value; a held one in any other
    currency yields nothing.
   */
  function Entry(holding: Option<Holding>, c: Currency, sum: real): Option<Dict<Currency, real>> {
    match holding
    case None => Some([(c, sum)])
    case Some(h) => if h.currency == c then Some([(c, sum + h.value)]) else None
  }

  /** One step of the inner loop of `get_profit`. */
  function Assign(profit: ProfitMap, figi: string, c: Currency, sum: real,
                  held: Dict<string, Holding>, search: string -> MarketInstrument): ProfitMap {
    match Entry(Find(held, figi), c, sum)
    case Some(e) => Set(profit, NameByFigi(figi, search), e)
    case None => profit
  }

  /** The inner loop over one instrument's currencies. */
  function AssignAll(profit: ProfitMap, figi: string, sums: Dict<Currency, real>,
                     held: Dict<string, Holding>, search: string -> MarketInstrument): ProfitMap {
    if sums == [] then profit
    else
      var last := sums[|sums| - 1];
      Assign(AssignAll(profit, figi, sums[..|sums| - 1], held, search), figi, last.0, last.1, held, search)
  }

  /** The outer loop over the instruments. */
  function AssignFigis(profit: ProfitMap, ft: FigiTotals,
                       held: Dict<string, Holding>, search: string -> MarketInstrument): ProfitMap {
    if ft == [] then profit
    else
      var last := ft[|ft| - 1];
      AssignAll(AssignFigis(profit, ft[..|ft| - 1], held, search), last.0, last.1, held, search)
  }

  function BaseProfit(ops: seq<Operation>): ProfitMap {
    [("dividend", Dividends(ops)), ("coupon", Coupons(ops))]
  }

  /** What `get_profit` returns. */
  function ProfitOf(ops: seq<Operation>, positions: seq<Position>, search: string -> MarketInstrument): ProfitMap {
    AssignFigis(BaseProfit(ops), FigiTotalsOf(ops), Holdings(positions), search)
  }

  /** A display name ends with `)`; `dividend` and `coupon` do not. */
  predicate IsLabel(k: string) {
    |k| > 0 && k[|k| - 1] == ')'
  }

  /** The entry an instrument's whole inner loop leaves: the last currency that yields one wins. */
  function LastEntry(sums: Dict<Currency, real>, holding: Option<Holding>): Option<Dict<Currency, real>> {
    if sums == [] then None
    else
      var last := sums[|sums| - 1];
      var e := Entry(holding, last.0, last.1);
      if e.Some? then e else LastEntry(sums[..|sums| - 1], holding)
  }

  /** The entry the outer loop leaves under display name `name`: the last instrument that writes it wins. */
  function LabelWrite(ft: FigiTotals, name: string, held: Dict<string, Holding>,
                      search: string -> MarketInstrument): Option<Dict<Currency, real>> {
    if ft == [] then None
    else
      var last := ft[|ft| - 1];
      var w := if NameByFigi(last.0, search) == name then LastEntry(last.1, Find(held, last.0)) else None;
      if w.Some? then w else LabelWrite(ft[..|ft| - 1], name, held, search)
  }

  lemma {:induction false} AssignAllAt(profit: ProfitMap, figi: string, sums: Dict<Currency, real>,
                                       held: Dict<string, Holding>, search: string -> MarketInstrument, name: string)
    ensures Find(AssignAll(profit, figi, sums, held, search), name) ==
            var e := LastEntry(sums, Find(held, figi));
            if NameByFigi(figi, search) == name && e.Some? then e else Find(profit, name)
  {
    if sums != [] {
      AssignAllAt(profit, figi, sums[..|sums| - 1], held, search, name);
    }
  }

  lemma {:induction false} AssignFigisAt(profit: ProfitMap, ft: FigiTotals,
                                         held: Dict<string, Holding>, search: string -> MarketInstrument, name: string)
    ensures Find(AssignFigis(profit, ft, held, search), name) ==
            var w := LabelWrite(ft, name, held, search);
            if w.Some? then w else Find(profit, name)
  {
    if ft != [] {
      var last := ft[|ft| - 1];
      AssignFigisAt(profit, ft[..|ft| - 1], held, search, name);
      AssignAllAt(AssignFigis(profit, ft[..|ft| - 1], held, search), last.0, last.1, held, search, name);
    }
  }

  /** No entry of the profit map repeats a currency. */
  ghost predicate EntriesDistinct(profit: ProfitMap) {
    forall i :: 0 <= i < |profit| ==> DistinctKeys(profit[i].1)
  }

  lemma {:induction false} AssignAllEntriesDistinct(profit: ProfitMap, figi: string, sums: Dict<Currency, real>,
                                                    held: Dict<string, Holding>, search: string -> MarketInstrument)
    requires EntriesDistinct(profit)
    ensures EntriesDistinct(AssignAll(profit, figi, sums, held, search))
  {
    if sums != [] {
      var last := sums[|sums| - 1];
      AssignAllEntriesDistinct(profit, figi, sums[..|sums| - 1], held, search);
      var p := AssignAll(profit, figi, sums[..|sums| - 1], held, search);
      var name := NameByFigi(figi, search);
      match Entry(Find(held, figi), last.0, last.1)
      case Some(e) =>
        var r := Set(p, name, e);
        forall i | 0 <= i < |r| ensures DistinctKeys(r[i].1) {
          SetEntry(p, name, e, i);
        }
      case None =>
    }
  }

  lemma {:induction false} AssignFigisEntriesDistinct(profit: ProfitMap, ft: FigiTotals,
                                                      held: Dict<string, Holding>, search: string -> MarketInstrument)
    requires EntriesDistinct(profit)
    ensures EntriesDistinct(AssignFigis(profit, ft, held, search))
  {
    if ft != [] {
      var last := ft[|ft| - 1];
      AssignFigisEntriesDistinct(profit, ft[..|ft| - 1], held, search);
      AssignAllEntriesDistinct(AssignFigis(profit, ft[..|ft| - 1], held, search), last.0, last.1, held, search);
    }
  }

  /**
    Every entry of the profit map holds each currency at most once: the base
    entries are totals, and an instrument's entry is a single currency.
   */
  lemma ProfitOfEntriesDistinct(ops: seq<Operation>, positions: seq<Position>, search: string -> MarketInstrument)
    ensures EntriesDistinct(ProfitOf(ops, positions, search))
  {
    var base := BaseProfit(ops);
    assert EntriesDistinct(base) by {
      forall i | 0 <= i < |base| ensures DistinctKeys(base[i].1) {
        if i == 0 { assert base[i].1 == Dividends(ops); } else { assert base[i].1 == Coupons(ops); }
      }
    }
    AssignFigisEntriesDistinct(base, FigiTotalsOf(ops), Holdings(positions), search);
  }

  /** An entry that is not a display name keeps its place and value through the loops. */
  lemma {:induction false} AssignFigisKeeps(profit: ProfitMap, ft: FigiTotals,
                                            held: Dict<string, Holding>, search: string -> MarketInstrument, i: nat)
    requires i < |profit| && !IsLabel(profit[i].0)
    ensures i < |AssignFigis(profit, ft, held, search)| && AssignFigis(profit, ft, held, search)[i] == profit[i]
  {
    if ft != [] {
      var last := ft[|ft| - 1];
      AssignFigisKeeps(profit, ft[..|ft| - 1], held, search, i);
      AssignAllKeeps(AssignFigis(profit, ft[..|ft| - 1], held, search), last.0, last.1, held, search, i);
    }
  }

  lemma {:induction false} AssignAllKeeps(profit: ProfitMap, figi: string, sums: Dict<Currency, real>,
                                          held: Dict<string, Holding>, search: string -> MarketInstrument, i: nat)
    requires i < |profit| && !IsLabel(profit[i].0)
    ensures i < |AssignAll(profit, figi, sums, held, search)| && AssignAll(profit, figi, sums, held, search)[i] == profit[i]
  {
    if sums != [] {
      var last := sums[|sums| - 1];
      AssignAllKeeps(profit, figi, sums[..|sums| - 1], held, search, i);
      var p := AssignAll(profit, figi, sums[..|sums| - 1], held, search);
      var name := NameByFigi(figi, search);
      match Entry(Find(held, figi), last.0, last.1)
      case Some(e) =>
        if name in Keys(p) { SetInPlace(p, name, e, i); }
      case None =>
    }
  }

  /**
    The profit map always begins with the `dividend` entry, built from
    dividends and their tax, and the `coupon` entry, built from coupons and
    their tax; no instrument overwrites them.
   */
  lemma ProfitBase(ops: seq<Operation>, positions: seq<Position>, search: string -> MarketInstrument)
    ensures var p := ProfitOf(ops, positions, search);
      && |p| >= 2
      && p[0] == ("dividend", Dividends(ops))
      && p[1] == ("coupon", Coupons(ops))
  {
    var base := BaseProfit(ops);
    AssignFigisKeeps(base, FigiTotalsOf(ops), Holdings(positions), search, 0);
    AssignFigisKeeps(base, FigiTotalsOf(ops), Holdings(positions), search, 1);
  }

  /**
    Under a display name, the profit map holds what the last instrument with
    that name wrote, and nothing when no instrument wrote it.
   */
  lemma ProfitAtName(ops: seq<Operation>, positions: seq<Position>, search: string -> MarketInstrument, name: string)
    requires IsLabel(name)
    ensures Find(ProfitOf(ops, positions, search), name) ==
            LabelWrite(FigiTotalsOf(ops), name, Holdings(positions), search)
  {
    AssignFigisAt(BaseProfit(ops), FigiTotalsOf(ops), Holdings(positions), search, name);
    BaseHasNoName(Dividends(ops), Coupons(ops), name);
  }

  lemma BaseHasNoName(dividend: Dict<Currency, real>, coupon: Dict<Currency, real>, name: string)
    requires IsLabel(name)
    ensures Find([("dividend", dividend), ("coupon", coupon)], name) == None
  {
    assert name != "dividend" by { assert "dividend"[7] != ')'; }
    assert name != "coupon" by { assert "coupon"[5] != ')'; }
    var tail := [("coupon", coupon)];
    assert Find(tail, name) == None by { assert tail[0].0 != name && tail[1..] == []; }
    assert [("dividend", dividend), ("coupon", coupon)][1..] == tail;
  }

  /** A name no instrument of the accumulator displays as is written by none of them. */
  lemma {:induction false} LabelWriteNone(ft: FigiTotals, name: string, held: Dict<string, Holding>,
                                          search: string -> MarketInstrument)
    requires forall g :: g in Keys(ft) ==> NameByFigi(g, search) != name
    ensures LabelWrite(ft, name, held, search) == None
  {
    if ft != [] {
      var init := ft[..|ft| - 1];
      assert ft == init + [ft[|ft| - 1]];
      KeysOfSnoc(init, ft[|ft| - 1]);
      LabelWriteNone(init, name, held, search);
    }
  }

  /** An instrument whose display name no other instrument shares writes its own last entry. */
  lemma {:induction false} LabelWriteUnique(ft: FigiTotals, figi: string, held: Dict<string, Holding>,
                                            search: string -> MarketInstrument)
    requires DistinctKeys(ft) && figi in Keys(ft)
    requires forall g :: g in Keys(ft) && g != figi ==> NameByFigi(g, search) != NameByFigi(figi, search)
    ensures LabelWrite(ft, NameByFigi(figi, search), held, search) == LastEntry(GetOr(ft, figi, []), Find(held, figi))
  {
    var init, last := ft[..|ft| - 1], ft[|ft| - 1];
    assert ft == init + [last];
    KeysOfSnoc(init, last);
    assert DistinctKeys(init) by {
      forall i, j | 0 <= i < j < |init| ensures init[i].0 != init[j].0 { assert init[i] == ft[i] && init[j] == ft[j]; }
    }
    if last.0 == figi {
      assert figi !in Keys(init) by {
        KeysAt(init, figi);
      }
      FindAt(ft, |ft| - 1);
      LabelWriteNone(init, NameByFigi(figi, search), held, search);
    } else {
      LabelWriteUnique(init, figi, held, search);
      FindKeys(init, figi);
      FindTail(init, last, figi);
    }
  }

  /** A closed instrument's inner loop leaves the entry of its last currency. */
  lemma LastEntryClosed(sums: Dict<Currency, real>)
    requires sums != []
    ensures LastEntry(sums, None) == Some([sums[|sums| - 1]])
  {
    var last := sums[|sums| - 1];
    assert Entry(None, last.0, last.1) == Some([last]);
  }

  /** A held instrument's inner loop leaves the position currency's entry, if it traded in it. */
  lemma {:induction false} LastEntryHeld(sums: Dict<Currency, real>, h: Holding)
    requires DistinctKeys(sums)
    ensures LastEntry(sums, Some(h)) ==
            if h.currency in Keys(sums) then Some([(h.currency, GetOr(sums, h.currency, 0.0) + h.value)]) else None
  {
    if sums != [] {
      var init, last := sums[..|sums| - 1], sums[|sums| - 1];
      assert sums == init + [last];
      KeysOfSnoc(init, last);
      assert DistinctKeys(init) by {
        forall i, j | 0 <= i < j < |init| ensures init[i].0 != init[j].0 { assert init[i] == sums[i] && init[j] == sums[j]; }
      }
      LastEntryHeld(init, h);
      if last.0 == h.currency {
        FindAt(sums, |sums| - 1);
      } else if h.currency in Keys(init) {
        FindKeys(init, h.currency);
        FindTail(init, last, h.currency);
      }
    }
  }

  /**
    The entry an instrument ends up with, stated directly from its
    accumulated sums: absent from the portfolio, the last currency's sum; held,
    the position currency's sum plus the position's value, or nothing when
    the instrument never traded in the position currency.
   */
  function InstrumentEntry(sums: Dict<Currency, real>, holding: Option<Holding>): Option<Dict<Currency, real>>
    requires sums != []
  {
    match holding
    case None => Some([sums[|sums| - 1]])
    case Some(h) =>
      if h.currency in Keys(sums) then Some([(h.currency, GetOr(sums, h.currency, 0.0) + h.value)]) else None
  }

  /**
    The held/closed case split for one instrument whose display name no
    other traded instrument shares. A closed instrument (absent from the
    portfolio) gets `{currency: sum}` for the last currency it traded in; a
    held instrument gets `{currency: sum + balance * average price + expected
    yield}` for its position currency when it traded in that currency, and
    no entry otherwise.
   */
  lemma ProfitOfInstrument(ops: seq<Operation>, positions: seq<Position>, search: string -> MarketInstrument,
                           figi: string)
    requires figi in Keys(FigiTotalsOf(ops))
    requires forall g :: g in Keys(FigiTotalsOf(ops)) && g != figi ==> NameByFigi(g, search) != NameByFigi(figi, search)
    ensures var sums := GetOr(FigiTotalsOf(ops), figi, []);
      && sums != []
      && Find(ProfitOf(ops, positions, search), NameByFigi(figi, search)) ==
         InstrumentEntry(sums, Find(Holdings(positions), figi))
  {
    var ft := FigiTotalsOf(ops);
    var sums := GetOr(ft, figi, []);
    assert DistinctKeys(ft) by { TradeSumsDistinct(Trades(ops)); }
    assert sums != [] && DistinctKeys(sums) by {
      FigiTotalsMeaning(ops, figi);
      var o :| o in ops && IsInstrumentTrade(o) && o.figi == figi;
      assert o in Trades(ops) && HasFigi(figi)(o);
      assert o.currency in Keys(sums);
    }
    var base, held := BaseProfit(ops), Holdings(positions);
    assert ProfitOf(ops, positions, search) == AssignFigis(base, ft, held, search);
    BaseHasNoName(Dividends(ops), Coupons(ops), NameByFigi(figi, search));
    AssignFigisInstrument(base, ft, held, search, figi);
  }

  /**
    The held/closed case split for every traded instrument when no traded
    figi contains `(` (broker figis are letters and digits): display names
    of such figis never collide.
   */
  lemma ProfitOfFigi(ops: seq<Operation>, positions: seq<Position>, search: string -> MarketInstrument, figi: string)
    requires figi in Keys(FigiTotalsOf(ops))
    requires forall g :: g in Keys(FigiTotalsOf(ops)) ==> '(' !in g
    ensures var sums := GetOr(FigiTotalsOf(ops), figi, []);
      && sums != []
      && Find(ProfitOf(ops, positions, search), NameByFigi(figi, search)) ==
         InstrumentEntry(sums, Find(Holdings(positions), figi))
  {
    forall g | g in Keys(FigiTotalsOf(ops)) && g != figi
      ensures NameByFigi(g, search) != NameByFigi(figi, search)
    {
      if NameByFigi(g, search) == NameByFigi(figi, search) {
        NameByFigiInjective(g, figi, search);
      }
    }
    ProfitOfInstrument(ops, positions, search, figi);
  }

  /** The case split stated over the loops' inputs. */
  lemma AssignFigisInstrument(base: ProfitMap, ft: FigiTotals, held: Dict<string, Holding>,
                              search: string -> MarketInstrument, figi: string)
    requires DistinctKeys(ft) && figi in Keys(ft)
    requires forall g :: g in Keys(ft) && g != figi ==> NameByFigi(g, search) != NameByFigi(figi, search)
    requires GetOr(ft, figi, []) != [] && DistinctKeys(GetOr(ft, figi, []))
    requires Find(base, NameByFigi(figi, search)) == None
    ensures var sums := GetOr(ft, figi, []);
      Find(AssignFigis(base, ft, held, search), NameByFigi(figi, search)) ==
      InstrumentEntry(sums, Find(held, figi))
  {
    var sums := GetOr(ft, figi, []);
    var name := NameByFigi(figi, search);
    AssignFigisAt(base, ft, held, search, name);
    LabelWriteUnique(ft, figi, held, search);
    assert Find(AssignFigis(base, ft, held, search), name) == LastEntry(sums, Find(held, figi));
    match Find(held, figi)
    case None => LastEntryClosed(sums);
    case Some(h) => LastEntryHeld(sums, h);
  }

  /** The accumulation loop of `get_profit` over the trades. */
  method AccumulateTrades(trades: seq<Operation>) returns (figiTotal: FigiTotals)
    ensures figiTotal == TradeSums(trades)
  {
    figiTotal := [];
    for i := 0 to |trades|
      invariant figiTotal == TradeSums(trades[..i])
    {
      assert trades[..i + 1][..i] == trades[..i];
      var o := trades[i];
      figiTotal := AddNested(figiTotal, o.figi, o.currency, TradeAmount(o));
    }
    assert trades[..|trades|] == trades;
  }

  /** The assignment loops of `get_profit` over the accumulated instruments. */
  method AssignEntries(base: ProfitMap, figiTotal: FigiTotals, held: Dict<string, Holding>,
                       search: string -> MarketInstrument) returns (profit: ProfitMap)
    ensures profit == AssignFigis(base, figiTotal, held, search)
  {
    profit := base;
    for i := 0 to |figiTotal|
      invariant profit == AssignFigis(base, figiTotal[..i], held, search)
    {
      assert figiTotal[..i + 1][..i] == figiTotal[..i];
      var figi, sums := figiTotal[i].0, figiTotal[i].1;
      ghost var before := profit;
      for j := 0 to |sums|
        invariant profit == AssignAll(before, figi, sums[..j], held, search)
      {
        assert sums[..j + 1][..j] == sums[..j];
        var c, sum := sums[j].0, sums[j].1;
        match Find(held, figi)
        case None =>
          profit := Set(profit, NameByFigi(figi, search), [(c, sum)]);
        case Some(h) =>
          if h.currency == c {
            profit := Set(profit, NameByFigi(figi, search), [(c, sum + h.value)]);
          }
      }
      assert sums[..|sums|] == sums;
    }
    assert figiTotal[..|figiTotal|] == figiTotal;
  }

  /** `get_profit`: the two base entries, the accumulator, the portfolio lookup and the assignments. */
  method GetProfit(ops: seq<Operation>, positions: seq<Position>, search: string -> MarketInstrument)
    returns (profit: ProfitMap)
    ensures profit == ProfitOf(ops, positions, search)
  {
    var dividend := TotalPaymentByFilter(ops, TypeIn(DividendTypes));
    var coupon := TotalPaymentByFilter(ops, TypeIn(CouponTypes));
    profit := Set([], "dividend", dividend);
    profit := Set(profit, "coupon", coupon);
    assert profit == BaseProfit(ops);
    var figiTotal := AccumulateTrades(Trades(ops));
    var held := Holdings(positions);
    profit := AssignEntries(profit, figiTotal, held, search);
  }
}

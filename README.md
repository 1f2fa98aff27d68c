# Invest calculator statistics, modelled in Dafny

This project models the statistics core of a small Tinkoff Invest helper.
The core is the `InvestCalculator` class of `common.py`. It fetches an
account's operations once for a date range and sums their payments per
currency under a predicate. From those sums it builds:

- the commission, pay-in, pay-out, trade and balance dictionaries;
- a profit map of dividends, coupons and per-instrument cash flow, where an
  instrument still held adds its current position value;
- the total profit;
- a nine-section text report;
- a portfolio listing.

Python dictionaries are ordered: insertion order decides the printed text,
and assigning to an existing key keeps its place. The model therefore
represents a dictionary as a sequence of key/value pairs (`Dicts.Dict`):

- `Dicts.Set` is `d[k] = v`;
- `Dicts.Add` is `d[k] += x` on a `defaultdict(float)`;
- `Dicts.Touch` is a `defaultdict` read, which inserts the default;
- `Dicts.GetOr` is a lookup that reads 0 when the key is absent.

Each per-currency aggregate is proved against reference definitions:

- `Aggregation.Currencies`: the currencies of the passing operations;
- `Aggregation.TotalIn`: the per-currency sum;
- `Aggregation.Total`: the grand total.

Each loop of the source is a Dafny method. Its `ensures` ties the method to
the functional specification that the lemmas are about.

Modules, in dependency order:

- `Wrappers`: `Option`.
- `Dicts`: ordered dictionaries.
- `Brokerage`: operations, positions, currencies and instrument display names.
- `Aggregation`: the filter and the per-currency total.
- `Statistics`: the named aggregates.
- `Profit`: `get_profit`.
- `Formatting`: the text helpers.
- `Report`: `get_statistics` and `get_statistics_str`.
- `Portfolio`: `get_portfolio_info`.
- `Calculator`: the API client, and the calculator class with its cached operations.
- `Scenario`: a worked account.

Some behaviour of `common.py` is easy to misread. The model follows the code:

- `get_total_operations_balance` (lines 91-94) sums buys, sells and card buys in every currency. It applies no currency filter.
- The `dividend` and `coupon` entries of `get_profit` (lines 102-109) are per-currency dictionaries, not single amounts.
- `figi_total` (lines 111-119) sums each instrument's trades separately in every currency it traded in.
- An instrument that is still in the portfolio keeps a profit entry (lines 127-132). When its position currency matches, the entry is the traded sum plus balance × average price plus expected yield. It has no entry only when it never traded in the position currency.
- Total Profit (lines 145-146) adds the service commission of each currency that occurs in the profit map, in any currency, not only roubles. Service commissions in other currencies are not added.
- Payments of zero are summed like any other payment (lines 66-67).

## Model

| member | source | states |
|---|---|---|
| Dicts.Set | common.py:130-132 | After `d[k] = v`, `k` finds `v` and every other key finds what it found before. The key set gains `k`. An existing key is overwritten in place (same length), and a new key is appended at the end. |
| Dicts.Add | common.py:67 | `d[k] += x` on a `defaultdict(float)` raises the value read for `k` (0 when absent) by `x` and leaves every other key unchanged. The key set gains `k`, and the sum of all values grows by `x`. |
| Dicts.Touch | common.py:146 | A `defaultdict` read returns the stored value, or the default. An absent key is appended with the default, and a present key leaves the dictionary as it was. |
| Dicts.KeySeq | common.py:145 | `d.keys()` lists the keys in dictionary order. |
| Brokerage.NameByFigi | common.py:96-98 | The display name of an instrument is non-empty and ends with `)`. |
| Brokerage.NameByFigiParts | common.py:98 | The display name starts with the ticker and ends with `(figi)`. |
| Aggregation.OperationsByFilter | common.py:61-62 | The filter keeps exactly the operations the predicate accepts and never grows the list. |
| Aggregation.FilterConcat | common.py:61-62 | Filtering a concatenation is concatenating the filtered parts, so `filter` keeps the accepted operations in their order, repeats included. |
| Aggregation.NoFilterKeepsAll | common.py:61-62 | With no predicate (`func=None`), every operation is kept. |
| Aggregation.SumsDistinct | common.py:65-68 | The accumulated dictionary never holds a currency twice. |
| Aggregation.FilteredSumsKeys | common.py:64-68 | The keys of the result are exactly the currencies of the operations that pass the predicate. |
| Aggregation.FilteredSumsAt | common.py:64-68 | Each currency maps to the sum of the passing operations' payments in that currency; an absent currency reads 0. |
| Aggregation.FilteredSumsTotal | common.py:64-68 | All values together add up to the sum of the passing operations' payments. |
| Aggregation.TotalsMeaning | common.py:64-68 | `get_total_payment_by_filter`: distinct keys, which are the passing currencies, with per-currency values and a grand total equal to the reference sums. With the always-true predicate, that total is the sum of all payments. |
| Aggregation.TotalsOfNoMatch | common.py:64-68 | A predicate that matches nothing yields the empty dictionary, and every lookup reads 0. |
| Aggregation.TotalInDisjointUnion | common.py:64-68 | For a predicate that is the disjoint union of two others, the per-currency reference sum is the sum of theirs. |
| Aggregation.TotalsOfDisjointUnion | common.py:64-68 | For a disjoint-union predicate, per currency the result is the sum of the two results, and its keys are the union of their keys. |
| Aggregation.TotalPaymentByFilter | common.py:64-68 | The accumulation loop computes exactly the functional total. |
| Statistics.AggregatesOfTotals | common.py:64-68 | Every filtered total has distinct keys, the passing currencies, and the reference per-currency sums. |
| Statistics.TotalsOfType | common.py:73-81 | A single-type total aggregates the operations of that type. |
| Statistics.ServiceCommissions | common.py:73-75 | `get_service_commission` aggregates the service commissions. |
| Statistics.Commissions | common.py:37-71 | `get_commissions` aggregates the four commission types. Per currency, it is service plus broker commissions plus both taxes, and it has every currency of the service commissions. |
| Statistics.PayInTotals | common.py:77-78 | `get_pay_in` aggregates the pay-ins. |
| Statistics.PayOutTotals | common.py:80-81 | `get_pay_out` aggregates the pay-outs. |
| Statistics.PayTotal | common.py:83-86 | `get_pay_total` is pay-in plus pay-out per currency, and its keys are the union of theirs. |
| Statistics.Balance | common.py:88-89 | `get_balance` aggregates the operations in roubles. Its only possible key is RUB, present exactly when some operation is in RUB. |
| Statistics.OperationsBalance | common.py:91-94 | `get_total_operations_balance` aggregates buys, sells and card buys in every currency. |
| Statistics.Dividends | common.py:102-106 | The `dividend` entry aggregates dividends and the tax on them. |
| Statistics.Coupons | common.py:107-109 | The `coupon` entry aggregates coupons and the tax on them. |
| Profit.TradeSumsAt | common.py:111-119 | The accumulator holds a figi exactly when some trade has it, and then holds the per-currency sums of that figi's trades. |
| Profit.TradeSumsDistinct | common.py:111-119 | The accumulator holds each figi once. |
| Profit.FigiTotalsMeaning | common.py:111-119 | `figi_total` has a key for a figi exactly when some non-currency buy, sell or card buy has that figi. The inner dictionary has distinct keys, which are that figi's trade currencies, and per currency it holds the sum of `payment + commission` over those trades. |
| Profit.HoldingsNone | common.py:121-125 | A figi that is in no position has no portfolio entry. |
| Profit.HoldingsLast | common.py:121-125 | A figi finds the ticker, value and currency of the last position that has it. |
| Profit.AssignAllAt | common.py:128-132 | One instrument's inner loop: a name's lookup is the instrument's last entry when the name is the instrument's display name, and is unchanged otherwise. |
| Profit.AssignFigisAt | common.py:127-132 | The outer loop: a name's lookup is the last instrument write under that name, or the lookup before the loops when no instrument wrote it. |
| Profit.AssignAllKeeps | common.py:128-132 | An entry whose key is not a display name keeps its index and value through one instrument's loop. |
| Profit.AssignFigisKeeps | common.py:127-132 | An entry whose key is not a display name keeps its index and value through all the loops. |
| Profit.ProfitBase | common.py:100-134 | The profit map always begins with `dividend` and then `coupon`, each holding its aggregate. |
| Profit.ProfitAtName | common.py:127-134 | Under a display name, the profit map holds the last write by an instrument with that name, and nothing when there is none. |
| Profit.LabelWriteNone | common.py:127-132 | A name that no accumulated instrument displays as is never written. |
| Profit.LabelWriteUnique | common.py:127-132 | An instrument whose display name no other instrument shares leaves its own last entry. |
| Profit.LastEntryClosed | common.py:129-130 | An instrument absent from the portfolio ends with `{currency: sum}` for the last currency it traded in. |
| Profit.LastEntryHeld | common.py:131-132 | A held instrument ends with `{currency: sum + value}` for its position currency when it traded in that currency, and with no entry otherwise. |
| Profit.ProfitOfInstrument | common.py:100-134 | The held/not-held case split for a traded instrument whose display name is unique among the traded instruments, stated from its accumulated sums and its portfolio entry. |
| Brokerage.NameByFigiInjective | common.py:98 | Figis without `(` have distinct display names. |
| Profit.ProfitOfFigi | common.py:100-134 | The same held/not-held case split for every traded instrument, when no traded figi contains `(`. |
| Profit.ProfitOfEntriesDistinct | common.py:100-134 | No entry of the profit map repeats a currency. The dividend and coupon entries are totals, and each instrument's entry holds a single currency. |
| Profit.AssignFigisInstrument | common.py:127-132 | The same case split, stated over the loops' inputs. |
| Profit.AccumulateTrades | common.py:112-119 | The accumulation loop computes exactly the functional accumulator. |
| Profit.AssignEntries | common.py:127-132 | The nested assignment loops compute exactly the functional assignment. |
| Profit.GetProfit | common.py:100-134 | `get_profit` computes exactly `ProfitOf`, the function the lemmas above describe. |
| Formatting.AmountEmoji | common.py:17-19 | The rounded amount followed by one mark: a check mark exactly when the amount is not negative, and a cross exactly when it is negative. |
| Formatting.FormatDict | common.py:22-23 | `format_dict` is empty exactly for the empty dictionary. A one-entry dictionary gives its `k: v` item. |
| Formatting.FormatDictSnoc | common.py:22-23 | One more entry appends `; ` and its `k: v` item. |
| Formatting.EmojiTextSnoc | common.py:26-33 | Entries contribute in order: a float gives `name: <amount><mark>; `, a dictionary gives `name: ` and its own text, and anything else gives nothing. |
| Formatting.EmojiPrefixEmpty | common.py:28-32 | The text of the first entries is empty exactly when every one of them is neither a float nor a dictionary. |
| Formatting.EmojiTextEmpty | common.py:26-33 | The text is empty exactly when no entry is a float or a dictionary. |
| Formatting.FormatDictWithEmoji | common.py:26-33 | The recursive loop computes exactly the functional text. |
| Report.AddAllAt | common.py:142-143 | Adding one profit entry into the total raises each currency by what the entry holds under it. |
| Report.AddAllKeys | common.py:142-143 | Adding one profit entry into the total adds that entry's currencies to its keys. |
| Report.AddAllDistinct | common.py:142-143 | The total never holds a currency twice. |
| Report.EntrySumDistinct | common.py:142-143 | For an entry without repeated currencies, what it holds under a currency is its lookup. |
| Report.ProfitSumsMeaning | common.py:140-143 | Before the service commissions, the total profit has each currency of the profit map once, with the sum over all profit entries. |
| Report.ProfitTotalInDistinct | common.py:140-143 | When no profit entry repeats a currency, the sum of the entries' amounts in a currency equals the sum of their lookups of that currency. |
| Report.ApplyServiceReads | common.py:145-146 | The service-commission reads keep every value that was already there. Reading an absent currency leaves 0 behind. |
| Report.ApplyServiceAt | common.py:145-146 | Each key of the total gains the service commission in its currency exactly once. |
| Report.ApplyServiceKeys | common.py:145-146 | The total keeps its keys. The service commissions gain every total-profit key. |
| Report.KeySeqDistinct | common.py:145 | The key list of a dictionary has no repeats and holds exactly its keys. |
| Report.TotalProfitMeaning | common.py:137-146 | The total profit's keys are the currencies of the profit map. Each value is the sum over all profit entries plus the service commission in that currency. The service commissions keep their values and gain a `0` entry for each profit currency they lacked, and that entry is printed in the `Service commissions` section. |
| Report.TotalProfitOfProfit | common.py:137-146 | For the profit map `get_profit` returns, the total profit in each of its currencies is the sum of the entries' lookups of that currency plus the service commission in it. |
| Report.AmountsText | common.py:26-33 | A currency dictionary prints `CUR: <amount><mark>; ` per entry, and nothing when it is empty. |
| Report.ProfitText | common.py:26-33 | Each profit entry prints its name, `: `, and its currency amounts. |
| Report.SectionTexts | common.py:148-158 | There are exactly nine section texts. |
| Report.StatisticsSections | common.py:148-158 | The report has the nine sections in their fixed order. |
| Report.ProfitOfNoOperations | common.py:100-134 | With no operations, the profit map is the two empty base entries. |
| Report.EmptyBaseText | common.py:26-33 | The two empty base entries print as `dividend: coupon: ` and sum to nothing. |
| Report.StatisticsOfNoOperations | common.py:136-158 | With no operations, every currency section is empty and the detailed profit is `dividend: coupon: `. |
| Report.StatisticsStr | common.py:160-161 | A single section gives `title -> text`. |
| Report.StatisticsStrSnoc | common.py:160-161 | Sections are joined with newlines: one more section appends `\n`, its title, ` -> ` and its text. |
| Report.SumProfit | common.py:140-143 | The nested total-profit loop computes exactly the functional sum. |
| Report.AddServiceCommission | common.py:145-146 | The service-commission loop computes exactly the functional step. |
| Report.GetStatistics | common.py:136-158 | `get_statistics`, built from the loops and the filtered totals, computes exactly `StatisticsOf`. |
| Portfolio.PortfolioInfo | common.py:163-174 | One row per position, in order, with the ticker, the display name (ending with the figi in parentheses), the average-price currency and value, the balance as lots, and the rounded current total `balance * average price + expected yield`. |
| Calculator.BrokerClient.constructor | common.py:57 | A client starts with no operation requests made. |
| Calculator.BrokerClient.OperationsGet | common.py:56-59 | An operations request returns the server's answer for the range and counts one more request. |
| Calculator.InvestCalculator.constructor | common.py:44-48 | The range ends at the given date or now, and starts at the given date or 1 January 2001 UTC. The operations are not yet fetched. |
| Calculator.InvestCalculator.GetAllOperations | common.py:56-59 | `get_all_operations` makes one request for the calculator's range. |
| Calculator.InvestCalculator.Operations | common.py:50-54 | The first access makes one request and keeps the answer. Every later access returns the kept list and makes no request. |
| Calculator.InvestCalculator.GetOperationsByFilter | common.py:61-62 | Filters the cached operations. With a filled cache it makes no request. With an empty cache it makes one request and keeps its answer. |
| Calculator.InvestCalculator.GetTotalPaymentByFilter | common.py:64-68 | Totals the cached operations. With a filled cache it makes no request. With an empty cache it makes one request and keeps its answer. |
| Calculator.InvestCalculator.GetProfit | common.py:100-134 | The profit map of the cached operations and the client's portfolio. With a filled cache it makes no request. With an empty cache it makes one request and keeps its answer. |
| Calculator.InvestCalculator.GetStatistics | common.py:136-158 | The report of the cached operations. With a filled cache it makes no request. With an empty cache it makes one request and keeps its answer. |
| Calculator.InvestCalculator.GetStatisticsStr | common.py:160-161 | The report text of the cached operations. With a filled cache it makes no request. With an empty cache it makes one request and keeps its answer. |
| Calculator.InvestCalculator.GetPortfolioInfo | common.py:163-174 | The portfolio listing of the client's positions. |
| Calculator.ReadOperationsTwice | common.py:50-54 | Two accesses to one calculator's operations give the same list and make at most one request. |
| Scenario.FilterThree | common.py:61-62 | Filtering three operations keeps each accepted one, in order. |
| Scenario.AccountCommissionTotals | common.py:70-71 | Totalling the commission types over the worked account gives RUB −5. |
| Scenario.AccountCommissions | common.py:70-71 | In the worked account, the commissions are RUB −5. |
| Scenario.AccountPayIn | common.py:77-78 | In the worked account, the pay-ins are RUB 1000. |
| Scenario.AccountOperations | common.py:91-94 | In the worked account, the trade balance is RUB −300. |
| Scenario.AccountBalance | common.py:88-89 | In the worked account, the rouble balance is 695. |
| Scenario.AccountFigiTotals | common.py:111-119 | In the worked account, the accumulator holds X with RUB −300. |
| Scenario.AccountBase | common.py:102-109 | In the worked account, the dividend and coupon entries are empty. |
| Scenario.AccountProfit | common.py:100-134 | In the worked account with an empty portfolio, the profit map is exactly `dividend` (empty), then `coupon` (empty), then X's display name with RUB −300. |
| Scenario.AccountMarks | common.py:17-19 | −5 renders with a cross and 1000 with a check mark. |
| Scenario.PositionExample | common.py:170 | 5 lots at 100 with a yield of 12.345 are worth 512.345 before rounding. |

## Left out

- Network calls become inputs.
  - The server's operations answer is a function of the date range and the request count (`BrokerClient.operationsFeed`).
  - The portfolio positions and the market search are fixed inputs of the client.
- `get_tinkoff_invest_client` is not modelled
  - It builds the API client from a token.
  - `BrokerClient` stands for that client.
- Floating point is not modelled.
  - Amounts are exact reals.
  - `str(float)` and `round(x, 2)` are parameters (`Formatting.Display`), so the digits of the printed numbers are not modelled.
- Dates are their ISO 8601 text.
  - The current time in Moscow, which is the default end of the range, is a parameter of the constructor.
  - Time-zone arithmetic is not modelled.
- The figi of an operation is a string. Operations without a figi (pay-ins, commissions) carry the empty string, because `None` figis are not modelled.
- `Report.AddServiceCommission` reads the keys of `total_profit` once, before the loop. The source iterates the live key view. The two agree because the loop only changes the values of keys that are already present.
- Profit.ProfitOfInstrument: the held/not-held split is stated only for an instrument whose display name no other traded instrument shares.
  - `Profit.ProfitOfFigi` discharges that assumption whenever no traded figi contains `(`.
  - For a shared name, `Profit.ProfitAtName` gives the general rule: the last writer wins.
- Profit.AssignFigisInstrument: this is the lemma behind `Profit.ProfitOfInstrument`, with the same unique-name assumption over the loops' inputs.
- `Calculator.InvestCalculator.GetPortfolioInfo` treats the portfolio as fixed during one run. Fetching the portfolio twice (once by `get_profit` and once by `get_portfolio_info`) is not modelled as two requests.
- `main.py` (the bot front end) is not part of this model.

/**
  The broker's API client and `InvestCalculator`, which fetches the account's
  operations once for its date range and computes every report from that
  one list.
 */
module Calculator {
  import opened Wrappers
  import opened Brokerage
  import opened Aggregation
  import Profit
  import Report
  import Portfolio
  import Formatting

  /**
    The API client. The server's answer to an operations request depends on
    the date range and may change from one request to the next, so it is
    given by the range and the number of operation requests made before.
    The portfolio and the market search are fixed for one run.
   */
  class BrokerClient {
    const operationsFeed: (string, string, nat) -> seq<Operation>
    const positions: seq<Position>
    const search: string -> MarketInstrument
    var operationRequests: nat

    constructor(operationsFeed: (string, string, nat) -> seq<Operation>, positions: seq<Position>,
                search: string -> MarketInstrument)
      ensures this.operationsFeed == operationsFeed && this.positions == positions && this.search == search
      ensures operationRequests == 0
    {
      this.operationsFeed := operationsFeed;
      this.positions := positions;
      this.search := search;
      operationRequests := 0;
    }

    /** `operations.operations_get(_from=..., to=...).payload.operations`: one more request to the server. */
    method OperationsGet(from: string, to: string) returns (ops: seq<Operation>)
      modifies this
      ensures ops == operationsFeed(from, to, old(operationRequests))
      ensures operationRequests == old(operationRequests) + 1
    {
      ops := operationsFeed(from, to, operationRequests);
      operationRequests := operationRequests + 1;
    }
  }

  /** `datetime(2001, 1, 1, tzinfo=utc).isoformat()`, the start of the range when none is given. */
  const DefaultDateFrom: string := "2001-01-01T00:00:00+00:00"

  class InvestCalculator {
    const client: BrokerClient
    const dateFrom: string
    const dateTo: string
    /** `_operations`: `None` until the first access. */
    var cache: Option<seq<Operation>>
    /** How many operation requests the client had answered before the one that filled the cache. */
    ghost var fetchedAt: nat

    /** A filled cache holds the server's answer to one earlier request for this range. */
    ghost predicate Valid()
      reads this, client
    {
      cache.Some? ==> fetchedAt < client.operationRequests && cache.value == client.operationsFeed(dateFrom, dateTo, fetchedAt)
    }

    /**
      `__init__`: the range ends at `dateTo`, or at the current time `now`
      when none is given, and starts at `dateFrom`, or at 1 January 2001 UTC.
      Dates are their ISO 8601 text, as `isoformat` gives it.
     */
    constructor(client: BrokerClient, dateFrom: Option<string>, dateTo: Option<string>, now: string)
      ensures this.client == client
      ensures this.dateFrom == (if dateFrom.Some? then dateFrom.value else DefaultDateFrom)
      ensures this.dateTo == (if dateTo.Some? then dateTo.value else now)
      ensures cache == None && Valid()
    {
      this.client := client;
      this.dateTo := if dateTo.Some? then dateTo.value else now;
      this.dateFrom := if dateFrom.Some? then dateFrom.value else DefaultDateFrom;
      cache := None;
      fetchedAt := 0;
    }

    /** `get_all_operations`: a request for the calculator's range. */
    method GetAllOperations() returns (ops: seq<Operation>)
      modifies client
      ensures ops == client.operationsFeed(dateFrom, dateTo, old(client.operationRequests))
      ensures client.operationRequests == old(client.operationRequests) + 1
    {
      ops := client.OperationsGet(dateFrom, dateTo);
    }

    /**
      The `operations` property: the first access makes the request and
      keeps its answer; every later access returns the kept list and makes
      no request.
     */
    method Operations() returns (ops: seq<Operation>)
      requires Valid()
      modifies this, client
      ensures Valid() && cache == Some(ops)
      ensures old(cache).Some? ==>
                ops == old(cache).value && fetchedAt == old(fetchedAt)
                && client.operationRequests == old(client.operationRequests)
      ensures old(cache).None? ==>
                ops == client.operationsFeed(dateFrom, dateTo, old(client.operationRequests))
                && client.operationRequests == old(client.operationRequests) + 1
    {
      if cache.None? {
        fetchedAt := client.operationRequests;
        var fetched := GetAllOperations();
        cache := Some(fetched);
      }
      ops := cache.value;
    }

    /** `get_operations_by_filter`. */
    method GetOperationsByFilter(keep: Operation -> bool) returns (r: seq<Operation>)
      requires Valid()
      modifies this, client
      ensures Valid() && cache.Some? && (old(cache).Some? ==> cache == old(cache))
      ensures old(cache).Some? ==> client.operationRequests == old(client.operationRequests)
      ensures old(cache).None? ==>
                cache == Some(client.operationsFeed(dateFrom, dateTo, old(client.operationRequests)))
                && client.operationRequests == old(client.operationRequests) + 1
      ensures r == OperationsByFilter(cache.value, keep)
    {
      var ops := Operations();
      r := OperationsByFilter(ops, keep);
    }

    /** `get_total_payment_by_filter`. */
    method GetTotalPaymentByFilter(keep: Operation -> bool) returns (r: Dicts.Dict<Currency, real>)
      requires Valid()
      modifies this, client
      ensures Valid() && cache.Some? && (old(cache).Some? ==> cache == old(cache))
      ensures old(cache).Some? ==> client.operationRequests == old(client.operationRequests)
      ensures old(cache).None? ==>
                cache == Some(client.operationsFeed(dateFrom, dateTo, old(client.operationRequests)))
                && client.operationRequests == old(client.operationRequests) + 1
      ensures r == Totals(cache.value, keep)
    {
      var ops := Operations();
      r := TotalPaymentByFilter(ops, keep);
    }

    /** `get_profit`, over the cached operations and the client's portfolio. */
    method GetProfit() returns (profit: Profit.ProfitMap)
      requires Valid()
      modifies this, client
      ensures Valid() && cache.Some? && (old(cache).Some? ==> cache == old(cache))
      ensures old(cache).Some? ==> client.operationRequests == old(client.operationRequests)
      ensures old(cache).None? ==>
                cache == Some(client.operationsFeed(dateFrom, dateTo, old(client.operationRequests)))
                && client.operationRequests == old(client.operationRequests) + 1
      ensures profit == Profit.ProfitOf(cache.value, client.positions, client.search)
    {
      var ops := Operations();
      profit := Profit.GetProfit(ops, client.positions, client.search);
    }

    /** `get_statistics`. */
    method GetStatistics(display: Formatting.Display) returns (stats: seq<(string, string)>)
      requires Valid()
      modifies this, client
      ensures Valid() && cache.Some? && (old(cache).Some? ==> cache == old(cache))
      ensures old(cache).Some? ==> client.operationRequests == old(client.operationRequests)
      ensures old(cache).None? ==>
                cache == Some(client.operationsFeed(dateFrom, dateTo, old(client.operationRequests)))
                && client.operationRequests == old(client.operationRequests) + 1
      ensures stats == Report.StatisticsOf(cache.value, client.positions, client.search, display)
    {
      var ops := Operations();
      stats := Report.GetStatistics(ops, client.positions, client.search, display);
    }

    /** `get_statistics_str`. */
    method GetStatisticsStr(display: Formatting.Display) returns (s: string)
      requires Valid()
      modifies this, client
      ensures Valid() && cache.Some? && (old(cache).Some? ==> cache == old(cache))
      ensures old(cache).Some? ==> client.operationRequests == old(client.operationRequests)
      ensures old(cache).None? ==>
                cache == Some(client.operationsFeed(dateFrom, dateTo, old(client.operationRequests)))
                && client.operationRequests == old(client.operationRequests) + 1
      ensures s == Report.StatisticsStr(Report.StatisticsOf(cache.value, client.positions, client.search, display))
    {
      var stats := GetStatistics(display);
      s := Report.StatisticsStr(stats);
    }

    /** `get_portfolio_info`, over the client's portfolio. */
    method GetPortfolioInfo(display: Formatting.Display) returns (rows: seq<Portfolio.PortfolioRow>)
      ensures |rows| == |client.positions|
      ensures forall i :: 0 <= i < |rows| ==> Portfolio.Describes(rows[i], client.positions[i], client.search, display.round2)
    {
      rows := Portfolio.PortfolioInfo(client.positions, client.search, display.round2);
    }
  }

  /**
    Two accesses to the operations of one calculator give the same list,
    and together they make at most one request to the server.
   */
  method ReadOperationsTwice(calculator: InvestCalculator) returns (first: seq<Operation>, second: seq<Operation>)
    requires calculator.Valid()
    modifies calculator, calculator.client
    ensures first == second
    ensures calculator.client.operationRequests <= old(calculator.client.operationRequests) + 1
  {
    first := calculator.Operations();
    second := calculator.Operations();
  }
}

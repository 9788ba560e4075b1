/** The single-file variant in `server.js`: a process-wide TTL cache of the
    last fetched list, the region's scrapers run together and filtered, and the
    average and slippage computed on every request. Its scrapers never throw:
    each yields a quote or `null`, modelled by `fetch`. The clock is the
    integer millisecond argument `now`. */
module SingleFileServer {
  import opened Outcomes
  import opened Rounding
  import opened Quotes
  import Collections
  import ScraperService
  import QuoteService

  /** `CACHE_DURATION`: 60 seconds in milliseconds. */
  const CacheDurationMs: int := 60 * 1000

  /** The scraper list `fetchQuotes` runs: BRL's exactly when REGION is "BRL". */
  function ServerScrapers(region: string): (scrapers: seq<Scraper>)
    ensures scrapers == if region == "BRL" then [Wise, Nubank, Nomad] else [Ambito, DolarHoy, Cronista]
    ensures |scrapers| == 3
    ensures forall i :: 0 <= i < |scrapers| ==>
      HomeRegion(scrapers[i]) == (if region == "BRL" then "BRL" else "ARS")
  {
    if region == "BRL" then [Wise, Nubank, Nomad] else [Ambito, DolarHoy, Cronista]
  }

  /** Both variants of the service bind every region to the same scrapers. */
  lemma SameScrapersAsService(region: string)
    ensures ServerScrapers(region) == ScraperService.ScrapersForRegion(region)
  {
  }

  /** The filter `q && q.buy_price && q.sell_price`: present, and both prices
      non-zero. */
  predicate Usable(r: Option<RawQuote>) {
    r.Some? && r.value.buy != 0.0 && r.value.sell != 0.0
  }

  /** The usable results, in their original order. */
  function ValidQuotes(results: seq<Option<RawQuote>>): (valid: seq<RawQuote>)
    ensures |valid| <= |results|
    decreases |results|
  {
    if |results| == 0 then []
    else
      var n := |results| - 1;
      var rest := ValidQuotes(results[..n]);
      if Usable(results[n]) then rest + [results[n].value] else rest
  }

  /** A quote survives exactly when some scraper returned it with both prices
      non-zero. */
  lemma {:induction false} ValidQuotesMembers(results: seq<Option<RawQuote>>)
    ensures forall q :: q in ValidQuotes(results) <==> Some(q) in results && q.buy != 0.0 && q.sell != 0.0
    decreases |results|
  {
    if |results| > 0 {
      var n := |results| - 1;
      ValidQuotesMembers(results[..n]);
      assert results == results[..n] + [results[n]];
    }
  }

  /** Filtering respects concatenation, so the survivors keep scraper order. */
  lemma {:induction false} ValidQuotesAppend(a: seq<Option<RawQuote>>, b: seq<Option<RawQuote>>)
    ensures ValidQuotes(a + b) == ValidQuotes(a) + ValidQuotes(b)
    decreases |b|
  {
    if |b| == 0 {
      assert a + b == a;
    } else {
      var n := |b| - 1;
      assert (a + b)[..|a + b| - 1] == a + b[..n];
      assert (a + b)[|a + b| - 1] == b[n];
      ValidQuotesAppend(a, b[..n]);
    }
  }

  /** When every scraper answered usably, nothing is dropped. */
  lemma {:induction false} ValidQuotesKeepsAllUsable(results: seq<Option<RawQuote>>)
    requires forall i :: 0 <= i < |results| ==> Usable(results[i])
    ensures |ValidQuotes(results)| == |results|
    ensures forall i :: 0 <= i < |results| ==> Some(ValidQuotes(results)[i]) == results[i]
    decreases |results|
  {
    if |results| > 0 {
      var n := |results| - 1;
      var prefix := results[..n];
      ValidQuotesKeepsAllUsable(prefix);
      assert Usable(results[n]);
      assert ValidQuotes(results) == ValidQuotes(prefix) + [results[n].value];
      assert forall i :: 0 <= i < n ==> prefix[i] == results[i];
    }
  }

  /** `fetchQuotes` with `fetch(s)` the value scraper s resolves to
      (`Promise.all` keeps the scraper order). */
  function FetchQuotes(region: string, fetch: Scraper -> Option<RawQuote>): (valid: seq<RawQuote>)
    ensures |valid| <= 3
    ensures forall q :: q in valid <==>
      q.buy != 0.0 && q.sell != 0.0 &&
      exists s :: s in ServerScrapers(region) && fetch(s) == Some(q)
  {
    var scrapers := ServerScrapers(region);
    var results := seq(|scrapers|, i requires 0 <= i < |scrapers| => fetch(scrapers[i]));
    assert forall s :: s in scrapers ==> fetch(s) in results by {
      forall s | s in scrapers
        ensures fetch(s) in results
      {
        var i :| 0 <= i < |scrapers| && scrapers[i] == s;
        assert results[i] == fetch(s);
      }
    }
    ValidQuotesMembers(results);
    ValidQuotes(results)
  }

  /** What one scraper's result contributes to the filtered list. */
  function Kept(r: Option<RawQuote>): seq<RawQuote> {
    if Usable(r) then [r.value] else []
  }

  /** The fetched list is each scraper's usable quote in scraper order. */
  lemma FetchQuotesInScraperOrder(region: string, fetch: Scraper -> Option<RawQuote>)
    ensures var sc := ServerScrapers(region);
      FetchQuotes(region, fetch) == Kept(fetch(sc[0])) + Kept(fetch(sc[1])) + Kept(fetch(sc[2]))
  {
    var sc := ServerScrapers(region);
    var results := seq(|sc|, i requires 0 <= i < |sc| => fetch(sc[i]));
    assert results == [fetch(sc[0])] + [fetch(sc[1])] + [fetch(sc[2])];
    ValidQuotesAppend([fetch(sc[0])] + [fetch(sc[1])], [fetch(sc[2])]);
    ValidQuotesAppend([fetch(sc[0])], [fetch(sc[1])]);
    forall r: Option<RawQuote>
      ensures ValidQuotes([r]) == Kept(r)
    {
      assert [r][..0] == [];
    }
  }

  // ---------------------------------------------------------------------------
  // The TTL cache

  /** `cachedQuotes` and `lastFetchTime`; both start out `null`. */
  datatype ServerState = ServerState(cachedQuotes: Option<seq<RawQuote>>, lastFetchTime: Option<int>)

  const Initial: ServerState := ServerState(None, None)

  /** The hit condition `cachedQuotes && lastFetchTime && now - lastFetchTime
      < CACHE_DURATION`. An array, even an empty one, is truthy; a
      `lastFetchTime` of 0 is not. */
  predicate Fresh(st: ServerState, now: int) {
    && st.cachedQuotes.Some?
    && st.lastFetchTime.Some? && st.lastFetchTime.value != 0
    && now - st.lastFetchTime.value < CacheDurationMs
  }

  /** `getQuotes()` at time `now`: answers the cached list while fresh,
      otherwise fetches, caches the fresh list (even an empty one) and stamps
      it with the `now` read before fetching. */
  function GetQuotes(st: ServerState, region: string, now: int, fetch: Scraper -> Option<RawQuote>)
    : (r: (seq<RawQuote>, ServerState))
    ensures Fresh(st, now) ==> r == (st.cachedQuotes.value, st)
    ensures !Fresh(st, now) ==>
      r.0 == FetchQuotes(region, fetch) && r.1 == ServerState(Some(r.0), Some(now))
  {
    if Fresh(st, now) then (st.cachedQuotes.value, st)
    else
      var latest := FetchQuotes(region, fetch);
      (latest, ServerState(Some(latest), Some(now)))
  }

  /** After a fetch at time t (t != 0), every call before t + 60000 answers the
      same list, whatever the scrapers would now say, and changes nothing. */
  lemma ServedFromCacheWithinTtl(st: ServerState, region: string, t: int, t': int,
                                 fetch: Scraper -> Option<RawQuote>, fetch': Scraper -> Option<RawQuote>)
    requires !Fresh(st, t) && t != 0 && t' < t + CacheDurationMs
    ensures var (quotes, st1) := GetQuotes(st, region, t, fetch);
      GetQuotes(st1, region, t', fetch') == (quotes, st1)
  {
  }

  /** From t + 60000 on, the next call fetches again. */
  lemma RefetchAfterTtl(st: ServerState, region: string, t: int, t': int,
                        fetch: Scraper -> Option<RawQuote>, fetch': Scraper -> Option<RawQuote>)
    requires !Fresh(st, t) && t' >= t + CacheDurationMs
    ensures var st1 := GetQuotes(st, region, t, fetch).1;
      GetQuotes(st1, region, t', fetch') == (FetchQuotes(region, fetch'), ServerState(Some(FetchQuotes(region, fetch')), Some(t')))
  {
  }

  /** A round in which every scraper failed caches an empty list, and for the
      next minute requests are answered with it without fetching. */
  lemma EmptyListIsCached(st: ServerState, region: string, t: int, t': int,
                          fetch': Scraper -> Option<RawQuote>)
    requires !Fresh(st, t) && t != 0 && t <= t' < t + CacheDurationMs
    ensures var st1 := GetQuotes(st, region, t, s => None).1;
      st1.cachedQuotes == Some([]) && GetQuotes(st1, region, t', fetch').0 == []
  {
    var latest := FetchQuotes(region, s => None);
    Collections.HeadIsMember(latest);
  }

  /** The first request after start-up always fetches, since nothing is cached. */
  lemma FirstRequestFetches(region: string, now: int, fetch: Scraper -> Option<RawQuote>)
    ensures GetQuotes(Initial, region, now, fetch)
         == (FetchQuotes(region, fetch), ServerState(Some(FetchQuotes(region, fetch)), Some(now)))
  {
  }

  /** A fetch stamped at time 0 is never served from the cache, because 0 is
      falsy. */
  lemma ZeroTimestampNeverHits(quotes: seq<RawQuote>, now: int)
    ensures !Fresh(ServerState(Some(quotes), Some(0)), now)
  {
  }

  // ---------------------------------------------------------------------------
  // Average and slippage

  datatype ServerAverage = ServerAverage(averageBuy: real, averageSell: real)

  /** `calculateAverage`: 0 and 0 for no quotes, otherwise each side's mean
      rounded to four decimals. */
  function CalculateAverage(quotes: seq<RawQuote>): (a: ServerAverage)
    ensures |quotes| == 0 ==> a == ServerAverage(0.0, 0.0)
    ensures OnGrid(a.averageBuy) && OnGrid(a.averageSell)
    ensures |quotes| > 0 ==>
      RoundsTo(Mean(Prices(quotes, Buy)), a.averageBuy) && RoundsTo(Mean(Prices(quotes, Sell)), a.averageSell)
  {
    if |quotes| == 0 then
      assert (0.0 * 10000.0).Floor == 0;
      ServerAverage(0.0, 0.0)
    else ServerAverage(Round4(Mean(Prices(quotes, Buy))), Round4(Mean(Prices(quotes, Sell))))
  }

  /** On a non-empty list the two variants compute the same averages. */
  lemma CalculateAverageAgreesWithService(quotes: seq<Quote>, now: int)
    requires |quotes| > 0
    ensures var a := QuoteService.AverageOf(quotes, now).value;
      CalculateAverage(Raws(quotes)) == ServerAverage(a.averageBuy, a.averageSell)
  {
  }

  /** A JavaScript number as far as this model needs one: a real, or one of the
      results of dividing by zero. */
  datatype JsNumber = Finite(value: real) | PositiveInfinity | NegativeInfinity | NaN

  /** `x / y` on numbers: a real quotient, or ±Infinity or NaN for y = 0. */
  function Divide(x: real, y: real): (n: JsNumber)
    ensures y != 0.0 ==> n.Finite? && n.value * y == x
    ensures y == 0.0 ==> !n.Finite?
    ensures y == 0.0 ==> (n.NaN? <==> x == 0.0) && (n.PositiveInfinity? <==> x > 0.0)
  {
    if y != 0.0 then Finite(x / y)
    else if x > 0.0 then PositiveInfinity
    else if x < 0.0 then NegativeInfinity
    else NaN
  }

  /** `parseFloat(n.toFixed(4))`: rounds a real, leaves Infinity and NaN alone. */
  function Fixed4(n: JsNumber): (m: JsNumber)
    ensures m.Finite? <==> n.Finite?
    ensures m.Finite? ==> RoundsTo(n.value, m.value)
    ensures !n.Finite? ==> m == n
  {
    match n
    case Finite(v) => Finite(Round4(v))
    case _ => n
  }

  /** `n` is what `parseFloat((x / y).toFixed(4))` evaluates to: the quotient
      to four decimals when y is not 0, and otherwise Infinity, -Infinity or NaN
      by the sign of x. */
  predicate RoundedQuotient(n: JsNumber, x: real, y: real) {
    && (y != 0.0 ==> n.Finite? && RoundsTo(x / y, n.value))
    && (y == 0.0 ==> !n.Finite? && (n.NaN? <==> x == 0.0) && (n.PositiveInfinity? <==> x > 0.0))
  }

  datatype ServerSlippage = ServerSlippage(buySlippage: JsNumber, sellSlippage: JsNumber, source: string)

  /** `calculateSlippage`: one record per quote, in order, dividing by the
      average without checking it for zero. */
  function CalculateSlippage(quotes: seq<RawQuote>, avg: ServerAverage): (recs: seq<ServerSlippage>)
    ensures |recs| == |quotes|
    ensures forall i :: 0 <= i < |quotes| ==>
      && recs[i].source == quotes[i].source
      && RoundedQuotient(recs[i].buySlippage, quotes[i].buy - avg.averageBuy, avg.averageBuy)
      && RoundedQuotient(recs[i].sellSlippage, quotes[i].sell - avg.averageSell, avg.averageSell)
  {
    seq(|quotes|, i requires 0 <= i < |quotes| =>
      ServerSlippage(Fixed4(Divide(quotes[i].buy - avg.averageBuy, avg.averageBuy)),
                     Fixed4(Divide(quotes[i].sell - avg.averageSell, avg.averageSell)),
                     quotes[i].source))
  }

  /** Where an average is not zero, every unguarded slippage on that side is
      the guarded deviation of the modular service. */
  lemma SlippageAgreesWithGuarded(quotes: seq<RawQuote>, avg: ServerAverage)
    ensures forall i :: 0 <= i < |quotes| && avg.averageBuy != 0.0 ==>
      CalculateSlippage(quotes, avg)[i].buySlippage == Finite(QuoteService.Deviation(quotes[i].buy, avg.averageBuy))
    ensures forall i :: 0 <= i < |quotes| && avg.averageSell != 0.0 ==>
      CalculateSlippage(quotes, avg)[i].sellSlippage == Finite(QuoteService.Deviation(quotes[i].sell, avg.averageSell))
  {
  }

  /** Prices of at least half a ten-thousandth keep both averages positive, so
      every slippage is a finite number. */
  lemma SlippageFiniteForPositivePrices(quotes: seq<RawQuote>)
    requires forall i :: 0 <= i < |quotes| ==> quotes[i].buy >= 0.00005 && quotes[i].sell >= 0.00005
    ensures forall rec :: rec in CalculateSlippage(quotes, CalculateAverage(quotes)) ==>
      rec.buySlippage.Finite? && rec.sellSlippage.Finite?
  {
    if |quotes| > 0 {
      MeanAtLeast(Prices(quotes, Buy), 0.00005);
      MeanAtLeast(Prices(quotes, Sell), 0.00005);
      Round4Positive(Mean(Prices(quotes, Buy)));
      Round4Positive(Mean(Prices(quotes, Sell)));
    }
  }

  /** Without the guard, a single quote too small to survive rounding gives an
      average of 0 and an infinite slippage; the modular service reports 0. */
  lemma TinyPriceGivesInfiniteSlippage(source: string)
    ensures var quotes := [RawQuote(source, 0.00001, 0.00001)];
      && CalculateAverage(quotes) == ServerAverage(0.0, 0.0)
      && CalculateSlippage(quotes, CalculateAverage(quotes))[0].buySlippage == PositiveInfinity
      && QuoteService.Deviation(0.00001, 0.0) == 0.0
  {
    var quotes := [RawQuote(source, 0.00001, 0.00001)];
    assert Prices(quotes, Buy) == [0.00001] && Prices(quotes, Sell) == [0.00001];
    assert [0.00001][..0] == [];
    assert (0.00001 * 10000.0 + 0.5).Floor == 0;
  }
}

/** The quote service of `src/services/quote.service.js`: cache-or-scrape,
    persistence that never fails the caller, and the average and slippage
    built on top. The cache is an abstract key/value map (its expiry is not
    part of this model), and each call's view of the outside world (what the
    scrapers yield, which database inserts fail, the clock) is an `Env`. */
module QuoteService {
  import opened Outcomes
  import opened Collections
  import opened Rounding
  import opened Quotes
  import opened ScraperService

  /** The cache key, fixed from the configured region when the service is
      built; `changeRegion` on the scraper service does not alter it. */
  function CacheKey(configRegion: string): string {
    "quotes_" + configRegion
  }

  /** One row of the `quotes` table. */
  datatype DbRow = DbRow(region: string, source: string, buy: real, sell: real, timestamp: int)

  datatype State = State(configRegion: string, scraper: Service,
                         cache: map<string, seq<Quote>>, db: seq<DbRow>)

  /** The outside world during one `getQuotes` call: scraper i's successive
      call outcomes, the indices of inserts the database rejects, and the clock. */
  datatype Env = Env(outcomes: seq<seq<Attempt>>, failedInserts: set<nat>, now: int)

  /** Every scraper of the service has a full retry budget of outcomes. */
  predicate Fits(st: State, env: Env) {
    |env.outcomes| == |st.scraper.scrapers| && Covers(env.outcomes, DefaultRetries)
  }

  /** No scraper succeeds within its retry budget. */
  predicate AllFail(outcomes: seq<seq<Attempt>>)
    requires Covers(outcomes, DefaultRetries)
  {
    forall i, k :: 0 <= i < |outcomes| && 0 <= k < DefaultRetries ==> outcomes[i][k].Threw?
  }

  // ---------------------------------------------------------------------------
  // Persistence

  function Row(region: string, q: Quote): DbRow {
    DbRow(region, q.raw.source, q.raw.buy, q.raw.sell, q.timestamp)
  }

  /** The rows the inserts of `Promise.all(quotes.map(insert))` leave behind,
      in quote order, and whether that `Promise.all` rejects. */
  function InsertAll(region: string, quotes: seq<Quote>, failed: set<nat>)
    : (r: (seq<DbRow>, Result<()>))
    ensures |r.0| <= |quotes|
    ensures r.1.Err? <==> exists i :: 0 <= i < |quotes| && i in failed
    ensures r.1.Ok? ==> |r.0| == |quotes| && forall i :: 0 <= i < |quotes| ==> r.0[i] == Row(region, quotes[i])
    ensures forall row :: row in r.0 ==> exists i :: 0 <= i < |quotes| && i !in failed && row == Row(region, quotes[i])
    ensures forall i :: 0 <= i < |quotes| && i !in failed ==> Row(region, quotes[i]) in r.0
    decreases |quotes|
  {
    if |quotes| == 0 then ([], Ok(()))
    else
      var n := |quotes| - 1;
      var (rows, status) := InsertAll(region, quotes[..n], failed);
      assert forall i :: 0 <= i < n ==> quotes[..n][i] == quotes[i];
      if n in failed then (rows, Err("insert failed"))
      else (rows + [Row(region, quotes[n])], status)
  }

  /** `saveQuotesToDb`: whatever the inserts do, the caller gets no error;
      the log only grows, by at most one row per quote. */
  function SaveQuotesToDb(db: seq<DbRow>, region: string, quotes: seq<Quote>, failed: set<nat>)
    : (db': seq<DbRow>)
    ensures db <= db' && |db'| <= |db| + |quotes|
    ensures (forall i :: 0 <= i < |quotes| ==> i !in failed) ==>
      |db'| == |db| + |quotes| && forall i :: 0 <= i < |quotes| ==> db'[|db| + i] == Row(region, quotes[i])
  {
    var (rows, _) := InsertAll(region, quotes, failed);
    db + rows
  }

  // ---------------------------------------------------------------------------
  // Quotes

  /** A response together with the service state after it. */
  datatype Served<+T> = Served(result: Result<T>, state: State)

  /** `getQuotes(forceRefresh)`. */
  function GetQuotes(st: State, forceRefresh: bool, env: Env): (s: Served<seq<Quote>>)
    requires Fits(st, env)
    ensures s.state.configRegion == st.configRegion && s.state.scraper == st.scraper
    ensures st.db <= s.state.db
    ensures !forceRefresh && CacheKey(st.configRegion) in st.cache ==>
      s == Served(Ok(st.cache[CacheKey(st.configRegion)]), st)
    ensures forceRefresh || CacheKey(st.configRegion) !in st.cache ==>
      (s.result.Err? <==> AllFail(env.outcomes))
    ensures (forceRefresh || CacheKey(st.configRegion) !in st.cache) && s.result.Err? ==>
      s.state == st && s.result.msg == AllFailedMessage
    ensures (forceRefresh || CacheKey(st.configRegion) !in st.cache) && s.result.Ok? ==>
      && s.result == Ok(ScrapeAll(st.scraper, env.outcomes, env.now).value.quotes)
      && s.state.cache == st.cache[CacheKey(st.configRegion) := s.result.value]
      && |s.result.value| > 0
  {
    var key := CacheKey(st.configRegion);
    if !forceRefresh && key in st.cache then Served(Ok(st.cache[key]), st)
    else
      match ScrapeAll(st.scraper, env.outcomes, env.now)
      case Err(m) => Served(Err(m), st)
      case Ok(report) =>
        var db' := SaveQuotesToDb(st.db, st.configRegion, report.quotes, env.failedInserts);
        Served(Ok(report.quotes), st.(db := db', cache := st.cache[key := report.quotes]))
  }

  /** A database failure never changes what `getQuotes` answers or caches. */
  lemma GetQuotesIgnoresDatabase(st: State, forceRefresh: bool, env: Env, failed: set<nat>)
    requires Fits(st, env)
    ensures GetQuotes(st, forceRefresh, env).result
         == GetQuotes(st, forceRefresh, env.(failedInserts := failed)).result
    ensures GetQuotes(st, forceRefresh, env).state.cache
         == GetQuotes(st, forceRefresh, env.(failedInserts := failed)).state.cache
  {
  }

  /** Every cached quote list is non-empty. */
  predicate CacheNonEmpty(cache: map<string, seq<Quote>>) {
    forall k :: k in cache ==> |cache[k]| > 0
  }

  /** An empty list is never cached, because the cache write is skipped
      whenever `scrapeAll` throws. */
  lemma GetQuotesKeepsCacheNonEmpty(st: State, forceRefresh: bool, env: Env)
    requires Fits(st, env) && CacheNonEmpty(st.cache)
    ensures CacheNonEmpty(GetQuotes(st, forceRefresh, env).state.cache)
    ensures GetQuotes(st, forceRefresh, env).result.Ok? ==>
      |GetQuotes(st, forceRefresh, env).result.value| > 0
  {
  }

  /** After a successful call, a non-forced call with any world at all is
      served from the cache: it answers the same list and changes nothing. */
  lemma RefreshThenHit(st: State, forceRefresh: bool, env1: Env, env2: Env)
    requires Fits(st, env1) && Fits(st, env2)
    requires GetQuotes(st, forceRefresh, env1).result.Ok?
    ensures var s1 := GetQuotes(st, forceRefresh, env1);
      GetQuotes(s1.state, false, env2) == Served(s1.result, s1.state)
  {
    var s1 := GetQuotes(st, forceRefresh, env1);
    assert CacheKey(st.configRegion) in s1.state.cache;
  }

  // ---------------------------------------------------------------------------
  // Average

  datatype Average = Average(averageBuy: real, averageSell: real, sourceCount: nat, timestamp: int)

  function AveragePrice(a: Average, side: Side): real {
    match side
    case Buy => a.averageBuy
    case Sell => a.averageSell
  }

  const NoQuotesMessage: string := "No quotes available to calculate average"

  /** The average step of `getAverage`: throws on an empty list, otherwise
      each side's mean rounded to four decimals, with the number of sources. */
  function AverageOf(quotes: seq<Quote>, now: int): (r: Result<Average>)
    ensures r.Err? <==> |quotes| == 0
    ensures r.Err? ==> r.msg == NoQuotesMessage
    ensures r.Ok? ==> r.value.sourceCount == |quotes| && r.value.timestamp == now
    ensures r.Ok? ==> forall side :: RoundsTo(Mean(Prices(Raws(quotes), side)), AveragePrice(r.value, side))
  {
    if |quotes| == 0 then Err(NoQuotesMessage)
    else
      var raws := Raws(quotes);
      Ok(Average(Round4(Mean(Prices(raws, Buy))), Round4(Mean(Prices(raws, Sell))), |quotes|, now))
  }

  /** The average lies between the rounded least and greatest price. */
  lemma AverageWithinPrices(quotes: seq<Quote>, now: int, side: Side, lo: real, hi: real)
    requires |quotes| > 0
    requires forall i :: 0 <= i < |quotes| ==> lo <= Price(quotes[i].raw, side) <= hi
    ensures Round4(lo) <= AveragePrice(AverageOf(quotes, now).value, side) <= Round4(hi)
  {
    var ps := Prices(Raws(quotes), side);
    MeanBounds(ps, lo, hi);
    Round4Monotone(lo, Mean(ps));
    Round4Monotone(Mean(ps), hi);
  }

  /** When every source quotes the same four-decimal price, the average is
      that price; in particular one source's average is its own price. */
  lemma AverageOfAgreeingQuotes(quotes: seq<Quote>, now: int, side: Side, p: real)
    requires |quotes| > 0 && OnGrid(p)
    requires forall i :: 0 <= i < |quotes| ==> Price(quotes[i].raw, side) == p
    ensures AveragePrice(AverageOf(quotes, now).value, side) == p
  {
    AverageWithinPrices(quotes, now, side, p, p);
    Round4Fixes(p);
  }

  /** The average does not depend on the order of the quotes: any
      rearrangement of the same quotes averages to the same result. */
  lemma AverageOrderIndependent(a: seq<Quote>, b: seq<Quote>, now: int)
    requires multiset(a) == multiset(b)
    ensures AverageOf(a, now) == AverageOf(b, now)
  {
    assert |a| == |multiset(a)| == |multiset(b)| == |b|;
    PriceSumPermutation(a, b, Buy);
    PriceSumPermutation(a, b, Sell);
  }

  /** `getAverage(forceRefresh)`: `getQuotes` and then the average. */
  function GetAverage(st: State, forceRefresh: bool, env: Env): (s: Served<Average>)
    requires Fits(st, env)
    ensures s.state == GetQuotes(st, forceRefresh, env).state
    ensures GetQuotes(st, forceRefresh, env).result.Err? ==>
      s.result == Err(GetQuotes(st, forceRefresh, env).result.msg)
    ensures GetQuotes(st, forceRefresh, env).result.Ok? ==>
      s.result == AverageOf(GetQuotes(st, forceRefresh, env).result.value, env.now)
  {
    var q := GetQuotes(st, forceRefresh, env);
    match q.result
    case Err(m) => Served(Err(m), q.state)
    case Ok(quotes) => Served(AverageOf(quotes, env.now), q.state)
  }

  /** While no empty list is cached, `getAverage` fails only when every
      scraper failed, never for want of quotes. */
  lemma GetAverageFailsOnlyWhenScrapingFails(st: State, forceRefresh: bool, env: Env)
    requires Fits(st, env) && CacheNonEmpty(st.cache)
    ensures GetAverage(st, forceRefresh, env).result.Err? ==>
      GetAverage(st, forceRefresh, env).result.msg == AllFailedMessage
  {
    GetQuotesKeepsCacheNonEmpty(st, forceRefresh, env);
  }

  // ---------------------------------------------------------------------------
  // Slippage

  datatype SlippageRecord = SlippageRecord(buySlippage: real, sellSlippage: real,
                                           absoluteBuyDiff: real, absoluteSellDiff: real,
                                           source: string, timestamp: int)

  /** The relative deviation of a price from an average, rounded to four
      decimals, and exactly 0 when the average is 0. */
  function Deviation(price: real, average: real): (d: real)
    ensures average == 0.0 ==> d == 0.0
    ensures average != 0.0 ==>
      RoundsTo((price - average) / average, d)
    ensures average > 0.0 && price >= average ==> d >= 0.0
    ensures average > 0.0 && price <= average ==> d <= 0.0
  {
    if average != 0.0 then Round4((price - average) / average) else 0.0
  }

  /** The record `getSlippage` builds for one quote. */
  function SlippageFor(q: Quote, avg: Average): (rec: SlippageRecord)
    ensures rec.source == q.raw.source && rec.timestamp == q.timestamp
    ensures rec.buySlippage == Deviation(q.raw.buy, avg.averageBuy)
    ensures rec.sellSlippage == Deviation(q.raw.sell, avg.averageSell)
    ensures RoundsTo(q.raw.buy - avg.averageBuy, rec.absoluteBuyDiff)
    ensures RoundsTo(q.raw.sell - avg.averageSell, rec.absoluteSellDiff)
  {
    SlippageRecord(Deviation(q.raw.buy, avg.averageBuy), Deviation(q.raw.sell, avg.averageSell),
                   Round4(q.raw.buy - avg.averageBuy), Round4(q.raw.sell - avg.averageSell),
                   q.raw.source, q.timestamp)
  }

  /** `quotes.map(...)`: one record per quote, in quote order. */
  function SlippageOf(quotes: seq<Quote>, avg: Average): (recs: seq<SlippageRecord>)
    ensures |recs| == |quotes|
    ensures forall i :: 0 <= i < |quotes| ==> recs[i] == SlippageFor(quotes[i], avg)
  {
    seq(|quotes|, i requires 0 <= i < |quotes| => SlippageFor(quotes[i], avg))
  }

  /** When every source agrees on a four-decimal buy price, every buy
      slippage and buy difference is 0. */
  lemma AgreeingQuotesHaveNoSlippage(quotes: seq<Quote>, now: int, p: real)
    requires |quotes| > 0 && OnGrid(p)
    requires forall i :: 0 <= i < |quotes| ==> quotes[i].raw.buy == p
    ensures forall rec :: rec in SlippageOf(quotes, AverageOf(quotes, now).value) ==>
      rec.buySlippage == 0.0 && rec.absoluteBuyDiff == 0.0
  {
    AverageOfAgreeingQuotes(quotes, now, Buy, p);
    assert Round4(0.0) == 0.0;
  }

  /** `getSlippage(forceRefresh)`: `getQuotes(forceRefresh)` answers the list
      that is iterated, then `getAverage(forceRefresh)` (a second
      `getQuotes`, seeing the world `env2`) answers the average it is compared
      against. */
  function GetSlippage(st: State, forceRefresh: bool, env1: Env, env2: Env)
    : (s: Served<seq<SlippageRecord>>)
    requires Fits(st, env1) && Fits(st, env2)
    ensures s.result.Ok? ==> GetQuotes(st, forceRefresh, env1).result.Ok?
    ensures s.result.Ok? ==>
      |s.result.value| == |GetQuotes(st, forceRefresh, env1).result.value|
    ensures GetQuotes(st, forceRefresh, env1).result.Err? ==>
      s == Served(Err(GetQuotes(st, forceRefresh, env1).result.msg), st)
    ensures forceRefresh && GetQuotes(st, true, env1).result.Ok? ==>
      (s.result.Err? <==> AllFail(env2.outcomes))
  {
    var s1 := GetQuotes(st, forceRefresh, env1);
    match s1.result
    case Err(m) => Served(Err(m), s1.state)
    case Ok(quotes) =>
      var s2 := GetAverage(s1.state, forceRefresh, env2);
      match s2.result
      case Err(m) => Served(Err(m), s2.state)
      case Ok(avg) => Served(Ok(SlippageOf(quotes, avg)), s2.state)
  }

  /** Without a forced refresh, the average is computed from the very list the
      records are built from, and the second lookup changes nothing. */
  lemma SlippageConsistentWithoutRefresh(st: State, env1: Env, env2: Env)
    requires Fits(st, env1) && Fits(st, env2) && CacheNonEmpty(st.cache)
    requires GetQuotes(st, false, env1).result.Ok?
    ensures var s1 := GetQuotes(st, false, env1);
      var quotes := s1.result.value;
      GetSlippage(st, false, env1, env2)
        == Served(Ok(SlippageOf(quotes, AverageOf(quotes, env2.now).value)), s1.state)
  {
    GetQuotesKeepsCacheNonEmpty(st, false, env1);
    RefreshThenHit(st, false, env1, env2);
  }

  /** With a forced refresh the two lookups scrape twice: the records come from
      the first scrape and the average from the second, which need not agree. */
  lemma SlippageScrapesTwiceOnRefresh(st: State, env1: Env, env2: Env)
    requires Fits(st, env1) && Fits(st, env2)
    requires !AllFail(env1.outcomes) && !AllFail(env2.outcomes)
    ensures var first := ScrapeAll(st.scraper, env1.outcomes, env1.now).value.quotes;
      var second := ScrapeAll(st.scraper, env2.outcomes, env2.now).value.quotes;
      GetSlippage(st, true, env1, env2).result == Ok(SlippageOf(first, AverageOf(second, env2.now).value))
    ensures GetSlippage(st, true, env1, env2).state.cache
         == st.cache[CacheKey(st.configRegion) := ScrapeAll(st.scraper, env2.outcomes, env2.now).value.quotes]
  {
    var s1 := GetQuotes(st, true, env1);
    var first := ScrapeAll(st.scraper, env1.outcomes, env1.now).value.quotes;
    assert s1.result == Ok(first);
    assert Fits(s1.state, env2);
    ForcedAverage(s1.state, env2);
    var a := GetAverage(s1.state, true, env2);
    assert a.result.Ok?;
    assert GetSlippage(st, true, env1, env2) == Served(Ok(SlippageOf(first, a.result.value)), a.state);
    var key := CacheKey(st.configRegion);
    var second := ScrapeAll(st.scraper, env2.outcomes, env2.now).value.quotes;
    assert s1.state.cache == st.cache[key := first];
    assert s1.state.scraper == st.scraper && s1.state.configRegion == st.configRegion;
    assert a.state.cache == st.cache[key := first][key := second];
    Overwrite(st.cache, key, first, second);
  }

  /** A forced `getAverage` in a world where some scraper answers averages the
      freshly scraped list and caches it. */
  lemma ForcedAverage(st: State, env: Env)
    requires Fits(st, env) && !AllFail(env.outcomes)
    ensures var scraped := ScrapeAll(st.scraper, env.outcomes, env.now).value.quotes;
      && GetAverage(st, true, env).result == AverageOf(scraped, env.now)
      && GetAverage(st, true, env).state.cache == st.cache[CacheKey(st.configRegion) := scraped]
  {
  }

  /** The averages of those two quotes are 810 and 855, and their buy
      slippages -0.0123 and 0.0123. */
  lemma TwoOfThreeAverage(a: string, b: string, now: int)
    ensures var quotes := [Quote(RawQuote(a, 800.0, 850.0), now), Quote(RawQuote(b, 820.0, 860.0), now)];
      && AverageOf(quotes, now) == Ok(Average(810.0, 855.0, 2, now))
      && SlippageOf(quotes, AverageOf(quotes, now).value)[0].buySlippage == -0.0123
      && SlippageOf(quotes, AverageOf(quotes, now).value)[1].buySlippage == 0.0123
  {
    var quotes := [Quote(RawQuote(a, 800.0, 850.0), now), Quote(RawQuote(b, 820.0, 860.0), now)];
    assert Sum(Prices(Raws(quotes), Buy)) == 1620.0 by {
      assert Prices(Raws(quotes), Buy) == [800.0, 820.0];
      assert [800.0, 820.0][..1] == [800.0];
    }
    assert Sum(Prices(Raws(quotes), Sell)) == 1710.0 by {
      assert Prices(Raws(quotes), Sell) == [850.0, 860.0];
      assert [850.0, 860.0][..1] == [850.0];
    }
    assert (810.0 * 10000.0 + 0.5).Floor == 8100000;
    assert (855.0 * 10000.0 + 0.5).Floor == 8550000;
    var avg := Average(810.0, 855.0, 2, now);
    assert AverageOf(quotes, now) == Ok(avg);
    assert ((10.0 / 810.0) * 10000.0 + 0.5).Floor == 123;
  }
}

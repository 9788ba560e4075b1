# Exchange-rate quote pipeline, modelled in Dafny

This project models the quote acquisition and reconciliation core of a small
currency-exchange API. The API fetches buy/sell quotes for a region (ARS or
BRL) from three web sources. It retries each source with a linear backoff and
tolerates partial failure. It caches what it fetched, and it reports an
average and a per-source slippage. Two variants of the core exist and both are
modelled:

- the modular service: `src/services/scraper.service.js` (scrapers per region,
  `changeRegion`, `scrapeWithRetry`, `scrapeAll`) and
  `src/services/quote.service.js` (`getQuotes`, `getAverage`, `getSlippage`,
  `saveQuotesToDb`);
- the single-file server `server.js` (`fetchQuotes`, a 60-second TTL cache in
  `getQuotes`, `calculateAverage`, `calculateSlippage`).

Everything is a pure function over immutable datatypes. Prices are `real`.
`parseFloat(x.toFixed(4))` is `Rounding.Round4`: rounding to four decimals
with ties away from zero, which is what `Number.prototype.toFixed` in the
ECMAScript specification does on exact values. A scraper is opaque. In the
modular service, one call to a scraper yields an `Attempt`:
`Succeeded(quote)` or `Threw(message)`. Scraper i's successive calls draw from
`outcomes[i]`. In the single-file server, a scraper never throws, so it is a
function `fetch` from scraper to quote-or-null. `Promise.allSettled` and
`Promise.all` become index-preserving maps. Sleeping becomes the list of
delays that were requested. Clocks are integer-millisecond parameters. The
database is an append-only list of rows, plus the set of inserts that fail.

Modules: `Outcomes` (Result/Option), `Collections` (two generic facts about
sequences and maps), `Rounding`, `Quotes` (records, sources, sums and means),
`ScraperService`, `QuoteService`, `SingleFileServer`.

The model follows the code in these points:

- The backoff is linear: 1000·k ms after failed attempt k, although a comment
  in the source calls it exponential.
- `scrapeWithRetry` rethrows a scraper's final error, and
  `Promise.allSettled` in `scrapeAll` turns it into a `Rejected` entry.
- The modular cache key is `quotes_` plus the configured region. It is fixed
  at construction, so `changeRegion` does not change which key is read.
- With `forceRefresh = true`, `getSlippage` scrapes twice. The records come
  from the first scrape and the average from the second
  (`QuoteService.SlippageScrapesTwiceOnRefresh`). Only without a forced
  refresh do the two lookups share one list
  (`QuoteService.SlippageConsistentWithoutRefresh`).
- `server.js` caches an empty list when every source failed and averages an
  empty list to 0. It divides by the average without a zero guard, so a zero
  average yields ±Infinity or NaN, which `SingleFileServer.JsNumber` models.

## Model

| member | source | states |
|---|---|---|
| Rounding.Round4 | src/services/quote.service.js:45-46 | `toFixed(4)` rounds its input to four decimals with ties away from zero (`RoundsTo`), and keeps the sign |
| Rounding.RoundsToUnique | src/services/quote.service.js:45-46 | each input has exactly one four-decimal rounding, so `RoundsTo` pins the result down |
| Rounding.Round4Monotone | src/services/quote.service.js:45-46 | rounding never reverses the order of two values |
| Rounding.Round4Fixes | src/services/quote.service.js:45-46 | a value already written with four decimals is unchanged, so rounding twice is rounding once |
| ScraperService.ScrapersForRegion | src/services/scraper.service.js:19-28 | "BRL" gets exactly Wise, Nubank, Nomad; "ARS" and every other region get exactly Ambito, DolarHoy, Cronista; the three are distinct and belong to that market |
| ScraperService.UnknownRegionFallsBack | src/services/scraper.service.js:24-27 | a region other than ARS or BRL gets exactly the ARS list |
| ScraperService.NewService | src/services/scraper.service.js:15-17 | the service starts with exactly the configured region's scraper list |
| ScraperService.ChangeRegion | src/services/scraper.service.js:85-91 | it fails iff the new region is neither ARS nor BRL; on failure the scraper list is unchanged and the message is the source's; otherwise the list becomes exactly the new region's list |
| ScraperService.ChangeRegionRoundTrip | src/services/scraper.service.js:85-91 | the last valid switch decides the list: switching to r1, r2 and r1 again ends where switching to r1 once does |
| ScraperService.RetryFrom | src/services/scraper.service.js:69-82 | from attempt k on: stops at the first success, rethrows the last error at the budget, and sleeps 1000·j ms after each failed attempt j except the last |
| ScraperService.ScrapeWithRetry | src/services/scraper.service.js:68-83 | at most `retries` calls; every call before the last failed; a success is the last call's quote; rejection happens iff every budgeted call threw, and carries the last error; the sleeps are 1000, 2000, … with none after the last call |
| ScraperService.RetryReturnsFirstSuccess | src/services/scraper.service.js:69-71 | the first success within the budget is returned after exactly that many calls |
| ScraperService.FailThenSucceedSleepsOnce | src/services/scraper.service.js:72-80 | with the default budget of 2, fail-then-succeed returns the success after 2 calls and one 1000 ms sleep |
| ScraperService.LinearBackoffTotal | src/services/scraper.service.js:79-80 | n linear delays total 500·n·(n+1) ms |
| ScraperService.RetrySleepBound | src/services/scraper.service.js:68-83 | one retry run sleeps at most 500·retries·(retries−1) ms |
| ScraperService.SettleAll | src/services/scraper.service.js:33-35 | settlement i is scraper i's own retry run, whatever the completion order; it is a rejection iff that scraper threw on every budgeted call, and a fulfilment holds a quote the scraper returned |
| ScraperService.SettleAllFulfilled | src/services/scraper.service.js:33-35 | every settlement is fulfilled iff every scraper succeeds within its budget |
| ScraperService.Partition | src/services/scraper.service.js:37-54 | quotes plus errors number exactly the settled results |
| ScraperService.PartitionMembers | src/services/scraper.service.js:40-54 | a quote appears iff some result was fulfilled with it (stamped `now`); an error appears iff some result was rejected with that message, and it names the scraper at the same index |
| ScraperService.PartitionAppend | src/services/scraper.service.js:40-54 | partitioning distributes over concatenation, so quotes and errors keep scraper-list order |
| ScraperService.PartitionNoQuotes | src/services/scraper.service.js:56-58 | there are no quotes iff every result was rejected |
| ScraperService.PartitionNoErrors | src/services/scraper.service.js:62-65 | there are no errors iff every result was fulfilled |
| ScraperService.ScrapeAll | src/services/scraper.service.js:30-66 | it throws "All scrapers failed to retrieve data" iff no scraper succeeded within two attempts; otherwise a quote appears iff it is stamped `now` and some scraper's run fulfilled with it, and an error appears iff some scraper's run rejected with that message, naming that scraper; the quotes are non-empty; `errors` is absent iff every scraper succeeded, and otherwise non-empty, with quotes plus errors equal to the number of scrapers |
| ScraperService.ScrapeAllInScraperOrder | src/services/scraper.service.js:33-54 | scraping a list of scrapers gives the quotes of its first part followed by those of the rest, so quotes keep scraper order whatever the completion order |
| ScraperService.TwoOfThreeScrape | src/services/scraper.service.js:40-65 | two ARS sources succeed on their first call and Cronista fails twice: two quotes in scraper order and one error naming Cronista |
| QuoteService.InsertAll | src/services/quote.service.js:85-99 | `Promise.all` over the inserts rejects iff some insert fails; a row is left iff its quote's insert succeeded; with no failure every quote gets its row in order |
| QuoteService.SaveQuotesToDb | src/services/quote.service.js:83-105 | no error reaches the caller; the log only grows, by at most one row per quote, and by exactly the quotes' rows when no insert fails |
| QuoteService.GetQuotes | src/services/quote.service.js:12-32 | without a refresh, a cache hit answers the cached list and changes nothing; otherwise it fails iff every scraper failed and leaves the state untouched; on success it answers the scraped quotes and caches exactly them under `quotes_<region>` |
| QuoteService.GetQuotesIgnoresDatabase | src/services/quote.service.js:101-104 | which inserts fail never changes the answer or the cache |
| QuoteService.GetQuotesKeepsCacheNonEmpty | src/services/quote.service.js:23-29 | an empty list is never cached, and any answer is non-empty |
| QuoteService.RefreshThenHit | src/services/quote.service.js:14-20 | after a successful call, a non-forced call answers the same list without scraping, whatever the scrapers would now yield |
| QuoteService.AverageOf | src/services/quote.service.js:37-49 | it throws iff there are no quotes; otherwise each average is the mean price rounded to four decimals with ties away from zero, and `source_count` is the number of quotes |
| QuoteService.AverageWithinPrices | src/services/quote.service.js:41-46 | the average lies between the rounded least and greatest price |
| QuoteService.AverageOfAgreeingQuotes | src/services/quote.service.js:41-46 | when all sources quote the same four-decimal price, the average is that price, as for a single source |
| Quotes.PriceSumPermutation | src/services/quote.service.js:41-42 | two quote lists holding the same quotes with the same multiplicities, in any order, have the same buy total and the same sell total |
| QuoteService.AverageOrderIndependent | src/services/quote.service.js:41-46 | any rearrangement of the same quotes (equal multisets) gives the same average |
| QuoteService.TwoOfThreeAverage | src/services/quote.service.js:41-77 | quotes 800/850 and 820/860 average 810 and 855, with buy slippages −0.0123 and 0.0123 |
| QuoteService.GetAverage | src/services/quote.service.js:34-52 | it fails with `getQuotes`'s error when that fails; otherwise it answers the average of the list `getQuotes` answered; it leaves the state `getQuotes` leaves |
| QuoteService.GetAverageFailsOnlyWhenScrapingFails | src/services/quote.service.js:35-39 | while no empty list is cached, the only failure is "All scrapers failed" |
| QuoteService.Deviation | src/services/quote.service.js:59-68 | it is 0 when the average is 0; otherwise it is (price − avg)/avg rounded to four decimals, with the sign of price − avg for a positive average |
| QuoteService.SlippageFor | src/services/quote.service.js:58-77 | the record carries the quote's source and timestamp and the guarded deviations; each absolute diff is price − average rounded to four decimals |
| QuoteService.SlippageOf | src/services/quote.service.js:58-80 | one record per quote, in quote order |
| QuoteService.AgreeingQuotesHaveNoSlippage | src/services/quote.service.js:58-77 | when all sources agree on a four-decimal buy price, every buy slippage and buy diff is 0 |
| QuoteService.GetSlippage | src/services/quote.service.js:54-81 | when the first `getQuotes` fails it fails with that error and changes nothing; after a successful forced first lookup it fails iff every scraper fails in the second scrape; on success it has one record per quote the first `getQuotes` answered |
| QuoteService.SlippageConsistentWithoutRefresh | src/services/quote.service.js:54-56 | without a refresh, and with no empty list cached, the average is computed from the very list that is iterated, and the second lookup changes nothing |
| QuoteService.SlippageScrapesTwiceOnRefresh | src/services/quote.service.js:54-56 | with a refresh, the records come from the first scrape and the average from a second one, whose list ends up in the cache |
| QuoteService.ForcedAverage | src/services/quote.service.js:34-49 | a forced `getAverage`, when some scraper answers, averages the freshly scraped list and caches exactly that list |
| SingleFileServer.ServerScrapers | server.js:257-263 | "BRL" gets exactly Wise, Nubank, Nomad and any other REGION exactly Ambito, DolarHoy, Cronista |
| SingleFileServer.SameScrapersAsService | server.js:259-263 | the single-file server and the modular service map every region to the same scrapers |
| SingleFileServer.ValidQuotes | server.js:266 | the filter never adds results |
| SingleFileServer.ValidQuotesMembers | server.js:266 | a quote survives iff some scraper returned it with non-zero buy and sell prices |
| SingleFileServer.ValidQuotesAppend | server.js:265-266 | filtering distributes over concatenation, so survivors keep scraper order |
| SingleFileServer.ValidQuotesKeepsAllUsable | server.js:266 | when every result is usable, all are kept, in order |
| SingleFileServer.FetchQuotes | server.js:256-277 | at most three quotes; a quote is returned iff one of the region's scrapers returned it with non-zero prices |
| SingleFileServer.FetchQuotesInScraperOrder | server.js:259-266 | the fetched list is the first, second and third scraper's usable quote, in that order, each present only when usable |
| SingleFileServer.GetQuotes | server.js:279-292 | while fresh it answers the cached list and changes nothing; otherwise it answers a new fetch, caches it, and stamps it with the `now` read before fetching |
| SingleFileServer.ServedFromCacheWithinTtl | server.js:282-285 | after a fetch at t ≠ 0, every call before t + 60000 answers the same list and changes nothing |
| SingleFileServer.RefetchAfterTtl | server.js:287-291 | from t + 60000 on, the next call fetches again and restamps |
| SingleFileServer.EmptyListIsCached | server.js:288-289 | a round where every scraper returned null caches `[]`, and `[]` is answered for the next minute |
| SingleFileServer.ZeroTimestampNeverHits | server.js:282 | a fetch stamped 0 is never a hit, because 0 is falsy |
| SingleFileServer.FirstRequestFetches | server.js:28-29 | the first request after start-up, with nothing cached, fetches and stamps the cache with its `now` |
| SingleFileServer.CalculateAverage | server.js:294-306 | an empty list averages 0 and 0; otherwise each average is the mean rounded to four decimals with ties away from zero |
| SingleFileServer.CalculateAverageAgreesWithService | server.js:294-306 | on a non-empty list, both variants compute the same averages |
| SingleFileServer.Divide | server.js:310-311 | a non-zero divisor gives the real quotient; a zero divisor gives +Infinity, −Infinity or NaN by the dividend's sign |
| SingleFileServer.Fixed4 | server.js:314-315 | a finite number is rounded to four decimals with ties away from zero; Infinity and NaN pass through |
| SingleFileServer.CalculateSlippage | server.js:308-319 | one record per quote, in order, with its source; each slippage is (price − avg)/avg rounded to four decimals when the average is non-zero, and is non-finite (±Infinity, or NaN for a zero difference) when the average is 0 |
| SingleFileServer.SlippageAgreesWithGuarded | server.js:308-318 | for every quote, on each side whose average is non-zero, the unguarded slippage equals the modular service's guarded deviation |
| SingleFileServer.SlippageFiniteForPositivePrices | server.js:308-318 | with every price at least 0.00005, every slippage is finite |
| SingleFileServer.TinyPriceGivesInfiniteSlippage | server.js:308-318 | a single quote of 0.00001 averages to 0 and gets an infinite buy slippage, where the modular service reports 0 |

## Left out

- The HTML extraction of every scraper (`src/scrapers/ars/*.js`, `src/scrapers/brl/*.js`, the `scrape*` functions in `server.js`). It depends on remote pages. This includes the per-source spread estimates, Wise's rate inversion and `parseFloat` of page text. Each scraper is an opaque outcome.
- `src/services/cache.service.js` (a NodeCache wrapper): its 60-second TTL (`stdTTL` at src/services/cache.service.js:8, default from src/config/config.js:9) is deliberately not modelled. The modular cache is an abstract map whose entries never expire. `QuoteService.RefreshThenHit` holds for every later clock reading only because of this, and an expiry between the two lookups of `getSlippage` is not represented.
- `getHistoricalQuotes` and the rest of the database layer (`src/database/*.js`, the `db.run` inserts in `server.js`). These are SQLite I/O. `saveQuotesToDb` is kept only as the rows it appends and the errors it swallows.
- Express routing, controllers, the error middleware and `src/config/config.js`. The refresh flag, region, TTL and retry budget are plain parameters or constants.
- Logging.
- IEEE-754 arithmetic. Prices are exact reals, so NaN prices, negative zero and binary rounding before `toFixed` are not represented.
- Real concurrency and real sleeping. Fan-out is an index-preserving map and backoff is a list of requested delays.
- ISO timestamp strings are integer milliseconds.
- ScraperService.ScrapeWithRetry: requires `retries >= 1`. With `retries <= 0` the loop never runs and the promise resolves to `undefined`, but every caller uses the default of 2.
- ScraperService.ScrapeWithRetry: requires an outcome for every budgeted call, since a scraper call always settles one way or the other.
- ScraperService.ScrapeAll: stamps every quote of one call with a single clock reading `now`. The source reads the clock once per fulfilled result, within one synchronous loop.
- QuoteService.GetAverage: stamps the average with the clock reading `now` of its `getQuotes` call. The source reads the clock again after scraping and saving (src/services/quote.service.js:48).
